/**
 * The username validator example (examples/validate-username): a command
 * handler that checks the length of a username and records the verdict as a
 * `UsernameValidated` event in its own events list.
 *
 * The handler is a `CommandBus.CommandHandler` whose reaction is `Reaction`:
 * `Handle` appends what `Reaction` gives and `CollectEvents` returns the list.
 */
module ValidateUsername {
  import opened Messages
  import EventBus
  import CommandBus
  import Registry

  /** Lengths are Go `len` of a string: bytes of UTF-8, not characters. */
  const MinLength: nat := 8
  const MaxLength: nat := 16

  const ValidReason := "Username is valid"
  const TooShortReason := "Username too short (minimum 8 characters)"
  const TooLongReason := "Username too long (maximum 16 characters)"

  /** What `UsernameValidated.GetEventType()` returns. */
  const Tag := "UsernameValidated"

  /** The verdict on `username`: valid exactly when its length is within the
      bounds, and each of the three outcomes has its own reason. */
  function Validate(username: string): (p: EventPayload)
    ensures p.UsernameValidated? && p.username == username
    ensures p.isValid <==> MinLength <= ByteLen(username) <= MaxLength
    ensures p.reason == ValidReason <==> p.isValid
    ensures p.reason == TooShortReason <==> ByteLen(username) < MinLength
    ensures p.reason == TooLongReason <==> MaxLength < ByteLen(username)
  {
    var n := ByteLen(username);
    if n >= MinLength && n <= MaxLength then UsernameValidated(username, true, ValidReason)
    else if n < MinLength then UsernameValidated(username, false, TooShortReason)
    else UsernameValidated(username, false, TooLongReason)
  }

  /** The events one `Handle` call appends: the verdict for a
      `ValidateUsernameCommand`, and nothing for any other command. */
  function Reaction(c: Command): (es: seq<Event>)
    ensures |es| == if c.ValidateUsernameCommand? then 1 else 0
    ensures forall e :: e in es ==> WellTagged(e) && EventType(e) == Tag && e.payload == Validate(c.username)
  {
    if c.ValidateUsernameCommand? then [Event(Tag, Validate(c.username))] else []
  }

  /** The event every run of the pipeline below hands to the event bus. */
  function Verdict(username: string): Event
  {
    Event(Tag, Validate(username))
  }

  /** The test set-up: an event bus whose one handler, `listener`, is registered
      for `UsernameValidated`; a command bus on it with a fresh validator for
      `ValidateUsernameCommand`; one `Execute` of a command for `username`. The
      listener is called once, with the verdict. */
  method ExecuteOnce(username: string, listener: HandlerId) returns (o: Outcome, calls: seq<Invocation>)
    ensures o == Ok(())
    ensures calls == [Invocation(listener, Verdict(username))]
  {
    var c := ValidateUsernameCommand(username);
    var commandBus, handler := CommandBus.SoleHandlerSetup(Tag, listener, c, Reaction);
    var eventBus := commandBus.eventBus;
    ghost var e := Verdict(username);
    assert handler.react(c) == [e];
    assert eventBus.received == [];
    o := CommandBus.RunSoleHandler(commandBus, c, handler, false);
    assert eventBus.received == [e];
    assert forall i :: 0 <= i < |eventBus.received| ==> Registry.Lookup(eventBus.handlers, EventType(eventBus.received[i])) == [listener];
    EventBus.SoleHandlerTrace(eventBus, listener);
    calls := eventBus.trace;
  }

  /** The username of the example's test of a valid name. */
  lemma ValidUsernameAccepted()
    ensures Validate("validuser123") == UsernameValidated("validuser123", true, "Username is valid")
  {
    assert ByteLen("validuser123") == 12;
  }

  /** The username of the example's test of a name that is too short. */
  lemma ShortUsernameRejected()
    ensures Validate("short") == UsernameValidated("short", false, "Username too short (minimum 8 characters)")
  {
    assert ByteLen("short") == 5;
  }

  /** The username of the example's test of a name that is too long. */
  lemma LongUsernameRejected()
    ensures Validate("verylongusernamethatistoolong")
              == UsernameValidated("verylongusernamethatistoolong", false, "Username too long (maximum 16 characters)")
  {
  }
}
