# gocqrs message buses in Dafny

This project models the core of `gocqrs`, a small in-process CQRS message
router written in Go, and proves properties of the model. It covers:

- **The command bus** (`commandbus.go`). Command handlers are kept per
  unqualified command type name, in registration order. `Execute` and
  `Dispatch` run the handlers of a command's type name one after another. For
  each handler the bus calls `Handle`, then `CollectEvents`, then hands every
  collected event, in order, to the event bus. A command without handlers
  panics.
- **The root event bus** (`eventbus.go`). Event handlers are kept per event
  tag (`GetEventType()`), appended in registration order. `Dispatch` calls
  every handler of the tag in order, and panics when there is none.
- **The `eventbus` subpackage's event bus** (`eventbus/eventbus.go`). It keeps
  one handler per tag; a later registration replaces the earlier one.
- **The query bus** (`querybus/querybus.go`). It keeps one handler per query
  type name, with the last registration winning. `Ask` returns the handler's
  result unchanged.
- **The three example handlers.** One validates a username's length, one looks
  up a username by ID, and one registers a user.

Modelling choices:

- A Go panic is the value `Panic(cause)` of `Result`. A call that would go on
  after a panic stops there, as Go's unwinding does. Everything done before the
  panic stays done.
- An event handler is a closure. The model knows it only by an identity,
  `HandlerId`, and records each call as an `Invocation` in the event bus's
  `trace`.
- The event bus carries two ghost fields that explain its trace:
  - `received`: the events handed to `Dispatch` since the registry last
    changed;
  - `earlier`: the calls made before that.

  Its invariant `Valid()` says that the trace is `earlier` followed by the calls
  of dispatching `received` through the current registry (`Fanout`). The command
  bus's contracts state which events reach the event bus (`received`), so the
  trace of handler calls follows from `Valid()`.
- A command handler is a `CommandHandler` object whose `events` list `Handle`
  extends and `CollectEvents` returns. What one `Handle` call appends is the
  handler's `react` function. Both example handlers are such objects, with the
  example's `Reaction` as `react`.
- `reflect.TypeOf(c).Name()` is `TypeName` (for commands) or `QueryTypeName`
  (for queries). The example message types answer with their Go names. Every
  other message type is one catch-all variant that carries its own short name.
  Two types of different packages that share a short name are therefore the
  same key, as in Go.
- Go's `len` of a string counts UTF-8 bytes. The username validator's length
  is `ByteLen`, not the number of characters.

Accumulated events:

- The interface comment on `CollectEvents` (commandbus.go:19-21) speaks of
  the events "produced during command handling". The example handlers never
  clear their lists, though. A later `Handle` therefore makes `CollectEvents`
  return the events of earlier commands too, and the command bus hands those
  to the event bus again. The model follows the code
  (`CommandBus.SameHandlerTwiceResends`, `UserRegister.DispatchTwiceResends`).

## Model

| member | source | states |
|---|---|---|
| Registry.Append | commandbus.go:70-73 | the handler goes to the end of the list under its key, every other key's list is unchanged, and the key set grows by exactly that key; an unregistered key reads as the empty list |
| Registry.AppendAllInOrder | eventbus.go:55-57 | successive registrations under one key are all kept, in registration order, and leave every other key alone |
| CommandBus.CommandHandler.constructor | examples/validate-username/validate-username.go:23-25 | a handler literal starts with the given events list |
| CommandBus.CommandHandler.CollectEvents | examples/validate-username/validate-username.go:59-61 | `CollectEvents` returns the handler's whole accumulated list, the earliest event first |
| CommandBus.CommandHandler.Handle | examples/validate-username/validate-username.go:27-57 | `Handle` appends the handler's reaction to the command to its own list, keeps the earlier events, and returns the receiver itself |
| CommandBus.EventsOf | commandbus.go:84-86 | the snapshot of the handlers' lists has exactly the handlers of the list as keys |
| CommandBus.FirstUnroutable | commandbus.go:87-89 | the index where forwarding stops lies between the start and the end of the events |
| CommandBus.FirstUnroutableSpec | commandbus.go:87-89 | every event before the stopping index has an event handler, and the event at it, if any, has none |
| CommandBus.FirstUnroutableIs | commandbus.go:87-89 | the stopping index is the only index with that property |
| CommandBus.Forwarded | commandbus.go:87-89 | the inner loop never hands over more events than were collected, and hands over at least the first one when there is any |
| CommandBus.ForwardOutcome | eventbus.go:44-46 | the inner loop panics only with the tag of an event that has no event handler |
| CommandBus.ForwardStopsAtFirstUnroutable | commandbus.go:87-89 | forwarding a handler's events succeeds if and only if every event has an event handler, and then hands over every event; otherwise it hands over the events up to and including the first one without a handler, and panics with that event's tag |
| CommandBus.ForwardRoutable | commandbus.go:87-89 | when every event has an event handler, all of them are handed over and forwarding succeeds |
| CommandBus.ForwardPanicsAt | commandbus.go:87-89 | when event `j` is the first without a handler, exactly the events up to `j` are handed over and the panic names `j`'s tag |
| CommandBus.FirstUnroutableAppend | commandbus.go:84-90 | across two lists of events, the first one without a handler is in the first list, or else in the second |
| CommandBus.ForwardAfterPanic | commandbus.go:84-90 | once a handler's events panic, nothing collected later reaches the event bus and the outcome stays the same |
| CommandBus.ForwardAfterOk | commandbus.go:84-90 | after events that all went through, forwarding goes on exactly as it would alone |
| CommandBus.ForwardStep | commandbus.go:84-90 | one more handler's events, after earlier ones that went through, extend what reached the event bus by what forwarding them alone hands over |
| CommandBus.EventsAfterKeepsEarlier | examples/user-register/user-register.go:39 | `Handle` only appends: the events a handler held before the command stay, unchanged, at the front of its list |
| CommandBus.CollectedPrefix | commandbus.go:84-90 | what earlier handlers collected reaches the event bus before anything a later handler collects: the first `m` handlers' share is a prefix of the first `n` handlers' share |
| CommandBus.Stop | commandbus.go:84-90 | the number of handlers that run lies between the starting point and the number of handlers |
| CommandBus.StopIsFirstPanic | commandbus.go:84-90 | handlers keep running while forwarding succeeds, and the last one to run, when not all run, is the first whose events panic |
| CommandBus.Ran | commandbus.go:84-90 | no more handlers run than are registered |
| CommandBus.RanGoesOnBefore | commandbus.go:84-90 | every handler that runs before the last one leaves the cascade going |
| CommandBus.RanStopsAtPanic | commandbus.go:84-90 | when fewer than all handlers run, forwarding what they collected panics |
| CommandBus.ForwardSettles | commandbus.go:84-90 | handlers after a panic change neither what reached the event bus nor the outcome |
| CommandBus.EventsAfterLeavesOthers | commandbus.go:84-86 | a handler that has not run yet keeps its list |
| CommandBus.FreshHandlersCollectReactions | commandbus.go:84-90 | distinct handlers that start with no events offer the event bus exactly the concatenation, in registration order, of their reactions, each in the order produced |
| CommandBus.LoneHandler | commandbus.go:84-90 | a handler registered alone offers its whole list, the earlier events followed by the new reaction |
| CommandBus.SameHandlerTwiceResends | commandbus.go:84-90 | a handler registered twice for one type is called twice, and its second `CollectEvents` returns the events of the first call again |
| CommandBus.DefaultCommandBus.constructor | commandbus.go:96-101 | a new command bus has no handlers and uses the given event bus |
| CommandBus.DefaultCommandBus.Register | commandbus.go:70-73 | the handler is appended to the handlers of the command's unqualified type name; other type names are unchanged |
| CommandBus.DefaultCommandBus.ForwardEvents | commandbus.go:87-89 | the inner loop hands the events, in order, to the event bus until the first panic, which it returns; the event bus's registry is untouched and its invariant kept |
| CommandBus.DefaultCommandBus.RunHandler | commandbus.go:85-89 | `Handle` runs before `CollectEvents`, and the collected list, the new reaction included, is what is forwarded |
| CommandBus.DefaultCommandBus.Advance | commandbus.go:84-90 | one turn of the outer loop extends the handlers' lists and the forwarded events by exactly the next handler's share |
| CommandBus.DefaultCommandBus.RunHandlers | commandbus.go:84-90 | the handlers run in registration order up to the first panic; every handler's list and the events handed to the event bus are those of exactly the handlers that ran |
| CommandBus.DefaultCommandBus.HandleCommand | commandbus.go:78-91 | no handler for the type name: panic, no handler called and no event forwarded; otherwise the outcome, every handler's list and the events handed to the event bus are those of the cascade in registration order; the registry never changes |
| CommandBus.DefaultCommandBus.Execute | commandbus.go:63-65 | the same contract as `handleCommand` |
| CommandBus.DefaultCommandBus.Dispatch | commandbus.go:56-58 | the same contract as `handleCommand`, and so the same as `Execute` |
| CommandBus.SoleHandlerSetup | commandbus.go:69-101 | the tests' set-up: one event handler for the tag and one fresh command handler for the type name, no calls made yet |
| CommandBus.RunSoleHandler | commandbus.go:56-91 | with one handler whose every event is routable, the command succeeds and the event bus is offered the handler's whole list |
| CommandBus.UnregisteredTypePanics | commandbus.go:79-83 | a command whose type name has no handler panics, and no command handler and no event handler is called |
| EventBus.DeliveriesCallEach | eventbus.go:47-49 | dispatching calls each handler of the tag once, in registration order |
| EventBus.FanoutPrefix | eventbus.go:42-50 | the calls made for earlier events do not depend on later ones |
| EventBus.FanoutCallsRegistered | eventbus.go:43-49 | every call the bus makes gives a dispatched event to a handler registered for that event's own tag |
| EventBus.FanoutToSoleHandler | eventbus.go:47-49 | when each event's tag has the one handler `h`, `h` is called once per event, in dispatch order |
| EventBus.SoleHandlerTrace | eventbus.go:42-50 | a bus whose only handler for the events it received is `h` has called `h` once for each of them, in order |
| EventBus.DefaultEventBus.constructor | eventbus.go:61-65 | a new bus has no handlers and has made no call |
| EventBus.DefaultEventBus.Register | eventbus.go:55-57 | the handler is appended to the tag's list, other tags are unchanged, and no handler is called |
| EventBus.DefaultEventBus.Dispatch | eventbus.go:42-50 | routing is by `GetEventType()` only; no handler for the tag: panic and no call; otherwise each handler of the tag is called once with the event, in registration order, and no other; the registry is unchanged |
| EventBus.DefaultEventBus.CallEach | eventbus.go:47-49 | the loop calls the handlers in order and changes nothing else |
| EventBus.RegisterTwiceCallsBoth | eventbus.go:47-57 | two handlers registered for one tag are both called, the first one first |
| EventBus.OtherTagIsNotCalled | eventbus.go:43-46 | a handler of another tag is never called, and a tag without handlers panics |
| SingleEventBus.DefaultEventBus.constructor | eventbus/eventbus.go:44-48 | a new bus has no handlers |
| SingleEventBus.DefaultEventBus.Register | eventbus/eventbus.go:38-40 | the tag's one handler becomes the new one, other tags are unchanged |
| SingleEventBus.DefaultEventBus.Dispatch | eventbus/eventbus.go:27-33 | the tag's one handler is called once with the event; no handler: panic and no call; the registry is unchanged |
| SingleEventBus.LastRegistrationWins | eventbus/eventbus.go:38-40 | after two registrations for one tag, only the later handler is called |
| SingleEventBus.OtherTagPanics | eventbus/eventbus.go:28-31 | a registration for another tag does not make an event deliverable |
| SingleEventBus.TwoTagsTwoHandlers | eventbus/eventbus.go:27-40 | two events with different tags each reach their own handler, in dispatch order |
| QueryBus.DefaultQueryBus.constructor | querybus/querybus.go:46-50 | a new bus has no handlers |
| QueryBus.DefaultQueryBus.Register | querybus/querybus.go:40-42 | the handler becomes the one for the query's unqualified type name, replacing any earlier one; other names are unchanged |
| QueryBus.DefaultQueryBus.Ask | querybus/querybus.go:29-35 | no handler for the type name: panic; otherwise exactly the handler's result, `Success = false` included; the registry is only read |
| QueryBus.LastRegistrationWins | querybus/querybus.go:40-42 | after two registrations for one type name, `Ask` uses the later handler |
| QueryBus.OtherTypeNamePanics | querybus/querybus.go:30-33 | a registration for another type name does not answer a query |
| Messages.Message | commandbus.go:82 | a bus's panic text ends with the type name or event tag it could not route |
| Messages.MessageNamesCause | eventbus/eventbus.go:30 | the four panic texts of the buses (commandbus.go:82, eventbus.go:45, eventbus/eventbus.go:30, querybus/querybus.go:32) tell their causes apart: equal texts mean the same bus and the same name or tag |
| Messages.ByteLen | examples/validate-username/validate-username.go:34 | a string's length in bytes is between its length in characters and four times that, and equals its length in characters exactly when every character is ASCII |
| ValidateUsername.Validate | examples/validate-username/validate-username.go:34-53 | the verdict carries the username unchanged; valid exactly when the byte length is between 8 and 16 inclusive; "Username is valid" exactly when valid; the too-short reason exactly when shorter than 8; the too-long reason exactly when longer than 16 |
| ValidateUsername.Reaction | examples/validate-username/validate-username.go:19-57 | a `ValidateUsernameCommand` yields exactly one event, tagged "UsernameValidated" and carrying the verdict; any other command yields none |
| ValidateUsername.ExecuteOnce | examples/validate-username/validate-username.go:27-61 | the example's test pipeline calls the listener exactly once, with the verdict for the username |
| ValidateUsername.ValidUsernameAccepted | examples/validate-username/validate-username.go:35-37 | "validuser123" is valid, with reason "Username is valid" |
| ValidateUsername.ShortUsernameRejected | examples/validate-username/validate-username.go:41-42 | "short" is invalid and too short |
| ValidateUsername.LongUsernameRejected | examples/validate-username/validate-username.go:43-44 | "verylongusernamethatistoolong" is invalid and too long |
| GetUsername.Handle | examples/get-username/get-username.go:15-38 | success exactly for IDs 1 to 5, with the table's username; any other ID gives "unknown_user" without success; the payload alone tells the two apart; a query of another type panics at the type assertion |
| GetUsername.AskThroughBus | examples/get-username/get-username.go:19-37 | through the query bus, IDs 1 to 5 give john_doe, jane_smith, bob_wilson, alice_johnson and charlie_brown, and 999 gives unknown_user without success |
| UserRegister.Reaction | examples/user-register/user-register.go:20-42 | a `RegisterCommand` yields exactly one event, tagged "UserRegistered" and carrying the command's username and email; any other command yields none |
| UserRegister.PasswordNotCopied | examples/user-register/user-register.go:35-38 | two registrations that differ only in the password produce the same events |
| UserRegister.DispatchOnce | examples/user-register/user-register.go:28-46 | dispatching the registration calls the listener exactly once, with the user's name and email |
| UserRegister.DispatchTwiceResends | examples/user-register/user-register.go:39-46 | a second dispatch re-sends the first event before the new one, so the listener hears of the registration three times |

## Left out

- Goroutines: `Dispatch` of the command bus runs the pipeline on a new
  goroutine. The model runs it in place and says nothing about timing,
  interleaving or concurrent dispatches. Two consequences:
  - Go's `Dispatch` returns nothing at once, and a panic on the spawned
    goroutine ends the whole process. The model's `Dispatch` instead returns
    the pipeline's `Outcome` to its caller.
  - The user-register test (user-register_test.go:38-42) reads
    `receivedEvents` straight after `Dispatch`, which races with the
    goroutine. `UserRegister.DispatchOnce` holds only because the model runs
    the pipeline before `Dispatch` returns.
- Reflection: `reflect.TypeOf(q).Name()` is replaced by a function from the
  modelled message types to their names.
- Nil messages: `reflect.TypeOf(nil).Name()` panics in `Register`,
  `handleCommand` and `Ask` (commandbus.go:71, commandbus.go:79,
  querybus/querybus.go:30, querybus/querybus.go:41). `GetEventType()` on a nil
  event panics in both event buses (eventbus.go:43, eventbus/eventbus.go:28).
  The message datatypes have no nil value, so these panics are not modelled.
- Nil handlers: a handler identity is never nil. The subpackage event bus and
  the query bus panic on a registered nil handler; the model has no such
  handler.
- Command handlers of other shapes: a Go `Handle` may return another handler
  than its receiver, or may do other things than appending to its own list.
  The model's handler always returns itself and only appends, as both example
  handlers do.
- Event handler side effects and re-entrancy: an event handler is an opaque
  identity. Its own effects, and calls back into a bus from within a handler,
  are not modelled.
- Panics raised inside command and event handlers are not modelled. Query
  handlers may panic (`QueryHandler` returns a `Result`), and the
  get-username handler's failed type assertion is modelled.
- Stateful query handlers: a Go `QueryHandler` is an interface value that may
  keep state between calls. The model's query handler is a pure function, so
  `Ask` gives the same result every time for one handler and one query.
- Other `EventBus` implementations behind the command bus's interface field:
  the command bus is modelled with the root package's `DefaultEventBus`.
- Payloads: `any` payloads are strings. The query result's payload is a
  string, and the catch-all message variants carry a string.
- The event tag: an event carries its tag as a field, where Go asks the event's
  type. `WellTagged` states that the example events answer with their own type
  name, and the example reactions produce only well-tagged events.
- The panic text of a failed type assertion (`GetUsername.Handle` on another
  query type) is a Go runtime error. The model records the cause but not its
  text; `Messages.Message` gives only the buses' own panic texts.
- Console output (`fmt.Printf`, `fmt.Println`) in the examples, and the
  `main` loop of the get-username example.
- Invalid UTF-8: Dafny strings are sequences of Unicode scalar values, so a
  Go string holding invalid UTF-8 has no counterpart in the model.
- CommandBus.DefaultCommandBus.HandleCommand: the contract states the events
  handed to the event bus and the event bus's invariant, not the trace of
  event handler calls directly. The trace follows from `EventBus.DefaultEventBus.Valid`.
- `DefaultSyncEventBus`, which the validate-username test constructs, is not
  part of this model; its scenario uses the root package's `DefaultEventBus`.
- The user-register test builds its command bus with a `commandbus.NewDefault`
  that is not part of this model, on the subpackage's event bus. Its scenario
  uses the root command bus and event bus instead, as the example's own
  imports do.
