/**
 * The messages the buses route: commands, events and queries, the result of a
 * query, and the panics of the Go code as values.
 *
 * Go's `Command` and `Query` are `any` and `Event` is an interface, so the set of
 * message types is open. The model closes it: each datatype lists the message
 * types of the example programs and one catch-all variant that carries its own
 * short type name (or event tag), which stands for every other type a caller
 * may define, including types of other packages that share a short name.
 */
module Messages {

  /** An event handler (a Go closure), known only by its identity. */
  type HandlerId = int

  datatype Command =
    | ValidateUsernameCommand(username: string)
    | RegisterCommand(username: string, email: string, password: string)
    | OtherCommand(typeName: string, payload: string)

  /** An event: the tag `GetEventType()` returns, and what the event carries. */
  datatype Event = Event(eventType: string, payload: EventPayload)

  datatype EventPayload =
    | UsernameValidated(username: string, isValid: bool, reason: string)
    | UserRegistered(username: string, email: string)
    | OtherPayload(data: string)

  datatype Query =
    | GetUsernameQuery(id: int)
    | OtherQuery(typeName: string, payload: string)

  /** The record a query handler returns; the payload is kept as a string. */
  datatype QueryResult = QueryResult(payload: string, success: bool)

  /** Why a call panicked. `Message` gives the text the buses panic with; a
      failed type assertion panics with a runtime error, whose text is not
      modelled. */
  datatype Cause =
    | NoCommandHandlers(typeName: string)
    | NoEventHandlers(tag: string)
    | NoEventHandler(tag: string)
    | NoQueryHandler(typeName: string)
    | FailedConversion(wanted: string)

  /** The type name or event tag a panic concerns. */
  function Subject(cause: Cause): string
  {
    match cause
    case NoCommandHandlers(name) => name
    case NoEventHandlers(tag) => tag
    case NoEventHandler(tag) => tag
    case NoQueryHandler(name) => name
    case FailedConversion(wanted) => wanted
  }

  /** The text the bus panics with: a fixed sentence of its own, then the type
      name or tag it could not route. */
  function Message(cause: Cause): (text: string)
    requires !cause.FailedConversion?
    ensures var name := Subject(cause);
            |name| < |text| && text[|text| - |name|..] == name
  {
    match cause
    case NoCommandHandlers(name) => "no handlers registered for command type: " + name
    case NoEventHandlers(tag) => "no handlers registered for event type: " + tag
    case NoEventHandler(tag) => "no handler registered for event type: " + tag
    case NoQueryHandler(name) => "no handler registered for query type: " + name
  }

  /** The panic texts of the buses tell their causes apart: from the text alone
      one can read which bus panicked and on which type name or tag. */
  lemma MessageNamesCause(c1: Cause, c2: Cause)
    requires !c1.FailedConversion? && !c2.FailedConversion?
    requires Message(c1) == Message(c2)
    ensures c1 == c2
  {
    var m := Message(c1);
    if c1.NoCommandHandlers? || c1.NoEventHandlers? {
      assert m[10] == 's';
    } else {
      assert m[10] == ' ';
    }
    if c1.NoCommandHandlers? || c1.NoEventHandlers? {
      assert m[27] == (if c1.NoCommandHandlers? then 'c' else 'e');
    } else {
      assert m[26] == (if c1.NoEventHandler? then 'e' else 'q');
    }
    assert Subject(c1) == Subject(c2);
  }

  /** A Go call that either returns or panics. */
  datatype Result<T> = Ok(value: T) | Panic(cause: Cause)

  /** The result of a call that returns nothing in Go. */
  type Outcome = Result<()>

  /** One call of an event handler with an event. */
  datatype Invocation = Invocation(handler: HandlerId, event: Event)

  /** The unqualified type name of a command: what `reflect.TypeOf(c).Name()` gives. */
  function TypeName(c: Command): string
  {
    match c
    case ValidateUsernameCommand(_) => "ValidateUsernameCommand"
    case RegisterCommand(_, _, _) => "RegisterCommand"
    case OtherCommand(name, _) => name
  }

  /** The unqualified type name of a query. */
  function QueryTypeName(q: Query): string
  {
    match q
    case GetUsernameQuery(_) => "GetUsernameQuery"
    case OtherQuery(name, _) => name
  }

  /** `e.GetEventType()`: the tag an event bus routes on. */
  function EventType(e: Event): string
  {
    e.eventType
  }

  /** The example event types answer `GetEventType()` with their own type name. */
  predicate WellTagged(e: Event)
  {
    match e.payload
    case UsernameValidated(_, _, _) => e.eventType == "UsernameValidated"
    case UserRegistered(_, _) => e.eventType == "UserRegistered"
    case OtherPayload(_) => true
  }

  /** Bytes one character takes in UTF-8, the encoding of a Go string. */
  function RuneLen(ch: char): nat
  {
    if ch as int < 0x80 then 1
    else if ch as int < 0x800 then 2
    else if ch as int < 0x1_0000 then 3
    else 4
  }

  /** Go's `len` of a string: its length in bytes, not in characters. */
  function ByteLen(s: string): (n: nat)
    ensures |s| <= n <= 4 * |s|
    ensures n == |s| <==> forall i :: 0 <= i < |s| ==> s[i] as int < 0x80
  {
    if s == [] then 0 else RuneLen(s[0]) + ByteLen(s[1..])
  }
}
