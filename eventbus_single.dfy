/**
 * The event bus of the `eventbus` subpackage (eventbus/eventbus.go). It differs
 * from the root package's bus in one rule: each tag has at most one handler,
 * and a later registration replaces the earlier one. `Dispatch` calls that one
 * handler, or panics before calling anything when the tag has none.
 *
 * As in the root package's bus, calls of handlers are recorded in `trace`.
 */
module SingleEventBus {
  import opened Messages

  class DefaultEventBus {
    var handlers: map<string, HandlerId>
    var trace: seq<Invocation>

    /** `NewDefault()`: a bus with no handlers that has called nothing. */
    constructor ()
      ensures handlers == map[] && trace == []
    {
      handlers := map[];
      trace := [];
    }

    /** Makes `eh` the one handler of `eventType`, replacing any earlier one. */
    method Register(eventType: string, eh: HandlerId)
      modifies this
      ensures handlers == old(handlers)[eventType := eh]
      ensures trace == old(trace)
    {
      handlers := handlers[eventType := eh];
    }

    /** Calls the handler of `e`'s tag once, or panics when the tag has none.
        The registry is only read. */
    method Dispatch(e: Event) returns (o: Outcome)
      modifies this
      ensures handlers == old(handlers)
      ensures EventType(e) in handlers ==>
                o == Ok(()) && trace == old(trace) + [Invocation(handlers[EventType(e)], e)]
      ensures EventType(e) !in handlers ==>
                o == Panic(NoEventHandler(EventType(e))) && trace == old(trace)
    {
      var tag := EventType(e);
      if tag !in handlers {
        return Panic(NoEventHandler(tag));
      }
      var handler := handlers[tag];
      trace := trace + [Invocation(handler, e)];
      o := Ok(());
    }
  }

  /** Two registrations for one tag: only the later handler is called. */
  method LastRegistrationWins(e: Event, h1: HandlerId, h2: HandlerId) returns (o: Outcome, calls: seq<Invocation>)
    ensures o == Ok(())
    ensures calls == [Invocation(h2, e)]
  {
    var bus := new DefaultEventBus();
    bus.Register(EventType(e), h1);
    bus.Register(EventType(e), h2);
    o := bus.Dispatch(e);
    calls := bus.trace;
  }

  /** A registration for another tag does not make an event deliverable. */
  method OtherTagPanics(e: Event, tag: string, h: HandlerId) returns (o: Outcome, calls: seq<Invocation>)
    requires tag != EventType(e)
    ensures o == Panic(NoEventHandler(EventType(e)))
    ensures calls == []
  {
    var bus := new DefaultEventBus();
    bus.Register(tag, h);
    o := bus.Dispatch(e);
    calls := bus.trace;
  }

  /** Dispatching two events: each reaches the handler registered for its own
      tag, in dispatch order. */
  method TwoTagsTwoHandlers(e1: Event, e2: Event, h1: HandlerId, h2: HandlerId) returns (calls: seq<Invocation>)
    requires EventType(e1) != EventType(e2)
    ensures calls == [Invocation(h1, e1), Invocation(h2, e2)]
  {
    var bus := new DefaultEventBus();
    bus.Register(EventType(e1), h1);
    bus.Register(EventType(e2), h2);
    var o1 := bus.Dispatch(e1);
    var o2 := bus.Dispatch(e2);
    calls := bus.trace;
  }
}
