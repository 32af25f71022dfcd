/**
 * The user registration example (examples/user-register): a command handler
 * that records a `UserRegistered` event for every `RegisterCommand` it handles.
 *
 * The handler is a `CommandBus.CommandHandler` whose reaction is `Reaction`.
 */
module UserRegister {
  import opened Messages
  import EventBus
  import CommandBus
  import Registry

  /** What `UserRegistered.GetEventType()` returns. */
  const Tag := "UserRegistered"

  /** The events one `Handle` call appends: for a `RegisterCommand`, one
      `UserRegistered` event with the command's username and email; for any
      other command, nothing. */
  function Reaction(c: Command): (es: seq<Event>)
    ensures |es| == if c.RegisterCommand? then 1 else 0
    ensures forall e :: e in es ==>
              && WellTagged(e) && EventType(e) == Tag
              && e.payload == UserRegistered(c.username, c.email)
  {
    if c.RegisterCommand? then [Event(Tag, UserRegistered(c.username, c.email))] else []
  }

  /** The password never reaches an event: two registrations that differ only
      in the password produce the same events. */
  lemma PasswordNotCopied(username: string, email: string, password1: string, password2: string)
    ensures Reaction(RegisterCommand(username, email, password1))
         == Reaction(RegisterCommand(username, email, password2))
  {
  }

  /** The example's test: an event bus whose one handler, `listener`, is
      registered for `UserRegistered`; a command bus on it with a fresh handler
      for `RegisterCommand`; one `Dispatch` of a registration. The listener is
      called once, with the registered user's name and email. */
  method DispatchOnce(listener: HandlerId) returns (o: Outcome, calls: seq<Invocation>)
    ensures o == Ok(())
    ensures calls == [Invocation(listener, Event("UserRegistered", UserRegistered("testuser", "test@example.com")))]
  {
    var c := RegisterCommand("testuser", "test@example.com", "password123");
    var commandBus, handler := CommandBus.SoleHandlerSetup(Tag, listener, c, Reaction);
    var eventBus := commandBus.eventBus;
    ghost var e := Event(Tag, UserRegistered("testuser", "test@example.com"));
    assert handler.react(c) == [e];
    assert eventBus.received == [];
    o := CommandBus.RunSoleHandler(commandBus, c, handler, true);
    assert eventBus.received == [e];
    assert forall i :: 0 <= i < |eventBus.received| ==> Registry.Lookup(eventBus.handlers, EventType(eventBus.received[i])) == [listener];
    EventBus.SoleHandlerTrace(eventBus, listener);
    calls := eventBus.trace;
  }

  /** The same set-up with a second `Dispatch` of the same registration. The
      handler never empties its list, so the second run hands the first
      event to the event bus again before the new one: the listener hears of
      the registration three times. */
  method DispatchTwiceResends(listener: HandlerId) returns (calls: seq<Invocation>)
    ensures var heard := Invocation(listener, Event("UserRegistered", UserRegistered("testuser", "test@example.com")));
            calls == [heard, heard, heard]
  {
    var c := RegisterCommand("testuser", "test@example.com", "password123");
    var commandBus, handler := CommandBus.SoleHandlerSetup(Tag, listener, c, Reaction);
    var eventBus := commandBus.eventBus;
    ghost var e := Event(Tag, UserRegistered("testuser", "test@example.com"));
    assert handler.react(c) == [e];
    assert eventBus.received == [];
    var first := CommandBus.RunSoleHandler(commandBus, c, handler, true);
    assert eventBus.received == [e] && handler.events == [e];
    var second := CommandBus.RunSoleHandler(commandBus, c, handler, true);
    assert eventBus.received == [e, e, e];
    assert forall i :: 0 <= i < |eventBus.received| ==> Registry.Lookup(eventBus.handlers, EventType(eventBus.received[i])) == [listener];
    EventBus.SoleHandlerTrace(eventBus, listener);
    calls := eventBus.trace;
  }
}
