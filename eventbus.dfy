/**
 * The event bus of the root package (eventbus.go): every event tag keeps the
 * list of its handlers in registration order, and dispatching an event calls
 * each of them in turn.
 *
 * An event handler is an opaque closure; the model records each call of one as
 * an `Invocation` appended to `trace`. Two ghost fields explain the trace: the
 * events handed to `Dispatch` since the registry last changed (`received`),
 * and the calls made before that (`earlier`).
 */
module EventBus {
  import opened Messages
  import opened Registry

  /** The calls `Dispatch(e)` makes when `hs` are the handlers of its tag. */
  function Deliveries(hs: seq<HandlerId>, e: Event): seq<Invocation>
  {
    if hs == [] then [] else Deliveries(hs[..|hs| - 1], e) + [Invocation(hs[|hs| - 1], e)]
  }

  /** Each handler of `hs` is called once with `e`, in the order of `hs`. */
  lemma {:induction false} DeliveriesCallEach(hs: seq<HandlerId>, e: Event)
    ensures |Deliveries(hs, e)| == |hs|
    ensures forall i :: 0 <= i < |hs| ==> Deliveries(hs, e)[i] == Invocation(hs[i], e)
  {
    if hs != [] {
      DeliveriesCallEach(hs[..|hs| - 1], e);
    }
  }

  /** Whether some handler is registered for the tag of `e`. */
  predicate Routable(reg: map<string, seq<HandlerId>>, e: Event)
  {
    Lookup(reg, EventType(e)) != []
  }

  /** The calls made by dispatching the first `n` events of `es`, one after
      another, through a bus whose registry is `reg` (an event without
      handlers makes no call). */
  function Fanout(reg: map<string, seq<HandlerId>>, es: seq<Event>, n: nat): seq<Invocation>
    requires n <= |es|
  {
    if n == 0 then []
    else Fanout(reg, es, n - 1) + Deliveries(Lookup(reg, EventType(es[n - 1])), es[n - 1])
  }

  /** The calls for the first `n` events do not depend on what follows them. */
  lemma {:induction false} FanoutPrefix(reg: map<string, seq<HandlerId>>, es: seq<Event>, more: seq<Event>, n: nat)
    requires n <= |es|
    ensures Fanout(reg, es + more, n) == Fanout(reg, es, n)
  {
    if n > 0 {
      FanoutPrefix(reg, es, more, n - 1);
      assert (es + more)[n - 1] == es[n - 1];
    }
  }

  /** Every call made by dispatching the first `n` events of `es` gives one of
      them to a handler registered for its tag. */
  lemma {:induction false} FanoutCallsRegistered(reg: map<string, seq<HandlerId>>, es: seq<Event>, n: nat)
    requires n <= |es|
    ensures forall inv :: inv in Fanout(reg, es, n) ==>
              inv.event in es[..n] && inv.handler in Lookup(reg, EventType(inv.event))
  {
    if n > 0 {
      var e := es[n - 1];
      FanoutCallsRegistered(reg, es, n - 1);
      DeliveriesCallEach(Lookup(reg, EventType(e)), e);
      forall inv | inv in Fanout(reg, es, n)
        ensures inv.event in es[..n] && inv.handler in Lookup(reg, EventType(inv.event))
      {
        if inv in Fanout(reg, es, n - 1) {
          assert es[..n - 1] <= es[..n];
        } else {
          var d := Deliveries(Lookup(reg, EventType(e)), e);
          var i :| 0 <= i < |d| && d[i] == inv;
          assert es[..n][n - 1] == e;
        }
      }
    }
  }

  /** When every one of the first `n` events of `es` has the same single
      handler `h`, dispatching them calls `h` once with each, in order. */
  lemma {:induction false} FanoutToSoleHandler(reg: map<string, seq<HandlerId>>, es: seq<Event>, n: nat, h: HandlerId)
    requires n <= |es|
    requires forall i :: 0 <= i < n ==> Lookup(reg, EventType(es[i])) == [h]
    ensures |Fanout(reg, es, n)| == n
    ensures forall i :: 0 <= i < n ==> Fanout(reg, es, n)[i] == Invocation(h, es[i])
  {
    if n > 0 {
      FanoutToSoleHandler(reg, es, n - 1, h);
      assert Deliveries([h], es[n - 1]) == [Invocation(h, es[n - 1])];
    }
  }

  /** A bus that had made no call when its registry last changed, and whose
      every event since has the single handler `h`, has called `h` once with
      each of those events, in order. */
  lemma SoleHandlerTrace(b: DefaultEventBus, h: HandlerId)
    requires b.Valid() && b.earlier == []
    requires forall i :: 0 <= i < |b.received| ==> Lookup(b.handlers, EventType(b.received[i])) == [h]
    ensures |b.trace| == |b.received|
    ensures forall i :: 0 <= i < |b.trace| ==> b.trace[i] == Invocation(h, b.received[i])
  {
    FanoutToSoleHandler(b.handlers, b.received, |b.received|, h);
  }

  class DefaultEventBus {
    var handlers: map<string, seq<HandlerId>>
    var trace: seq<Invocation>
    /** The events handed to `Dispatch` since the registry last changed. */
    ghost var received: seq<Event>
    /** The calls made before the registry last changed. */
    ghost var earlier: seq<Invocation>

    /** Every call the bus has made is one made before the registry last
        changed, or one of dispatching `received` through the registry. */
    ghost predicate Valid()
      reads this
    {
      trace == earlier + Fanout(handlers, received, |received|)
    }

    /** `DefaultEventBus()`: a bus with no handlers. */
    constructor ()
      ensures Valid()
      ensures handlers == map[] && trace == [] && received == []
    {
      handlers := map[];
      trace := [];
      received := [];
      earlier := [];
    }

    /** Appends `eh` to the handlers of `eventType`. */
    method Register(eventType: string, eh: HandlerId)
      modifies this
      ensures Valid()
      ensures handlers == Append(old(handlers), eventType, eh)
      ensures trace == old(trace) && received == []
    {
      handlers := handlers[eventType := Lookup(handlers, eventType) + [eh]];
      earlier := trace;
      received := [];
    }

    /** Calls every handler of `e`'s tag once, in registration order, and panics
        before calling anything when the tag has none. */
    method Dispatch(e: Event) returns (o: Outcome)
      requires Valid()
      modifies this
      ensures Valid()
      ensures handlers == old(handlers) && earlier == old(earlier)
      ensures received == old(received) + [e]
      ensures o == if Routable(handlers, e) then Ok(()) else Panic(NoEventHandlers(EventType(e)))
      ensures trace == old(trace) + Deliveries(Lookup(handlers, EventType(e)), e)
    {
      var hs := Lookup(handlers, EventType(e));
      ghost var before := Fanout(handlers, received, |received|);
      FanoutPrefix(handlers, received, [e], |received|);
      received := received + [e];
      if |hs| == 0 {
        o := Panic(NoEventHandlers(EventType(e)));
      } else {
        CallEach(hs, e);
        o := Ok(());
      }
      assert earlier + before + Deliveries(hs, e) == earlier + (before + Deliveries(hs, e));
    }

    /** The loop of `Dispatch`: calls each handler of `hs` with `e`, in order. */
    method CallEach(hs: seq<HandlerId>, e: Event)
      requires hs != []
      modifies this
      ensures handlers == old(handlers) && earlier == old(earlier) && received == old(received)
      ensures trace == old(trace) + Deliveries(hs, e)
    {
      for i := 0 to |hs|
        invariant handlers == old(handlers) && earlier == old(earlier) && received == old(received)
        invariant trace == old(trace) + Deliveries(hs[..i], e)
      {
        assert hs[..i + 1][..i] == hs[..i];
        trace := trace + [Invocation(hs[i], e)];
      }
      assert hs[..|hs|] == hs;
    }
  }

  /** Two handlers registered for one tag are both called, first one first. */
  method RegisterTwiceCallsBoth(e: Event, h1: HandlerId, h2: HandlerId) returns (o: Outcome, calls: seq<Invocation>)
    ensures o == Ok(())
    ensures calls == [Invocation(h1, e), Invocation(h2, e)]
  {
    var bus := new DefaultEventBus();
    bus.Register(EventType(e), h1);
    bus.Register(EventType(e), h2);
    DeliveriesCallEach([h1, h2], e);
    o := bus.Dispatch(e);
    calls := bus.trace;
  }

  /** A handler of another tag is never called, and a tag without handlers panics. */
  method OtherTagIsNotCalled(e: Event, tag: string, h: HandlerId) returns (o: Outcome, calls: seq<Invocation>)
    requires tag != EventType(e)
    ensures o == Panic(NoEventHandlers(EventType(e)))
    ensures calls == []
  {
    var bus := new DefaultEventBus();
    bus.Register(tag, h);
    o := bus.Dispatch(e);
    calls := bus.trace;
  }
}
