/**
 * The command bus of the root package (commandbus.go). Handlers are kept per
 * unqualified command type name, in registration order. Handling a command
 * runs every handler of its type name in turn: `Handle`, then `CollectEvents`,
 * then every collected event goes, in order, to the event bus.
 *
 * A panic anywhere (no command handler, or an event without event handler)
 * ends the cascade at once; what already happened stays done.
 */
module CommandBus {
  import opened Messages
  import opened Registry
  import EventBus

  /**
   * A command handler in the shape both example handlers have: `Handle` appends
   * the events it reacts with to the handler's own list and returns the handler
   * itself, and `CollectEvents` returns the whole list accumulated so far.
   */
  class CommandHandler {
    /** The events one call of `Handle` with a command appends. */
    const react: Command -> seq<Event>
    var events: seq<Event>

    /** A handler literal such as `&ValidateUsernameHandler{events: ...}`. */
    constructor (react: Command -> seq<Event>, events: seq<Event>)
      ensures this.react == react && this.events == events
    {
      this.react := react;
      this.events := events;
    }

    method Handle(c: Command) returns (self: CommandHandler)
      modifies this
      ensures self == this
      ensures events == old(events) + react(c)
    {
      events := events + react(c);
      self := this;
    }

    /** Everything the handler has accumulated, the earliest event first. */
    function CollectEvents(): (r: seq<Event>)
      reads this
      ensures r == events
    {
      events
    }
  }

  /** The events list of every handler of `hs`. */
  function EventsOf(hs: seq<CommandHandler>): (st: map<CommandHandler, seq<Event>>)
    reads set h | h in hs
    ensures st.Keys == set h | h in hs
  {
    map h | h in hs :: h.events
  }

  /** The events of `h` in the handler lists `st`. */
  function EventsIn(st: map<CommandHandler, seq<Event>>, h: CommandHandler): seq<Event>
  {
    if h in st then st[h] else []
  }

  /** The index of the first event of `es`, from `i` on, whose tag has no
      handler in `reg`; `|es|` when there is none. */
  function FirstUnroutable(reg: map<string, seq<HandlerId>>, es: seq<Event>, i: nat): (k: nat)
    requires i <= |es|
    ensures i <= k <= |es|
    decreases |es| - i
  {
    if i == |es| || !EventBus.Routable(reg, es[i]) then i else FirstUnroutable(reg, es, i + 1)
  }

  /** Every event from `i` up to `FirstUnroutable` has a handler, and the event
      there, if any, has none. */
  lemma {:induction false} FirstUnroutableSpec(reg: map<string, seq<HandlerId>>, es: seq<Event>, i: nat)
    requires i <= |es|
    ensures var k := FirstUnroutable(reg, es, i);
            && (forall j :: i <= j < k ==> EventBus.Routable(reg, es[j]))
            && (k < |es| ==> !EventBus.Routable(reg, es[k]))
    decreases |es| - i
  {
    if i < |es| && EventBus.Routable(reg, es[i]) {
      FirstUnroutableSpec(reg, es, i + 1);
    }
  }

  /** The inner loop of `handleCommand` hands `es` one by one to an event bus
      with registry `reg`; the first event whose tag has no handler panics, and
      the panic ends the loop. `Forwarded` is what the loop hands over. */
  function Forwarded(reg: map<string, seq<HandlerId>>, es: seq<Event>): (sent: seq<Event>)
    ensures |sent| <= |es| && (es != [] ==> sent != [])
  {
    var k := FirstUnroutable(reg, es, 0);
    if k == |es| then es else es[..k + 1]
  }

  /** How the inner loop of `handleCommand` ends on `es`. */
  function ForwardOutcome(reg: map<string, seq<HandlerId>>, es: seq<Event>): (o: Outcome)
    ensures o.Panic? ==> o.cause.NoEventHandlers? && Lookup(reg, o.cause.tag) == []
  {
    FirstUnroutableSpec(reg, es, 0);
    var k := FirstUnroutable(reg, es, 0);
    if k == |es| then Ok(()) else Panic(NoEventHandlers(EventType(es[k])))
  }

  /** Forwarding succeeds exactly when every event has a handler, and then hands
      over every event; otherwise it hands over every event up to and including
      the first one without a handler, and panics with that event's cause. */
  lemma ForwardStopsAtFirstUnroutable(reg: map<string, seq<HandlerId>>, es: seq<Event>)
    ensures ForwardOutcome(reg, es).Ok? <==> forall i :: 0 <= i < |es| ==> EventBus.Routable(reg, es[i])
    ensures ForwardOutcome(reg, es).Ok? ==> Forwarded(reg, es) == es
    ensures var sent := Forwarded(reg, es);
            ForwardOutcome(reg, es).Panic? ==>
              && 0 < |sent| <= |es|
              && sent == es[..|sent|]
              && (forall i :: 0 <= i < |sent| - 1 ==> EventBus.Routable(reg, sent[i]))
              && !EventBus.Routable(reg, sent[|sent| - 1])
              && ForwardOutcome(reg, es).cause == NoEventHandlers(EventType(sent[|sent| - 1]))
  {
    FirstUnroutableSpec(reg, es, 0);
    var k := FirstUnroutable(reg, es, 0);
    if k < |es| {
      var sent := Forwarded(reg, es);
      assert sent == es[..k + 1];
      forall i | 0 <= i < |sent| - 1 ensures EventBus.Routable(reg, sent[i]) {
        assert sent[i] == es[i];
      }
    }
  }

  /** `FirstUnroutable` is the one index before which every event has a handler
      and at which the events end or an event has none. */
  lemma {:induction false} FirstUnroutableIs(reg: map<string, seq<HandlerId>>, es: seq<Event>, i: nat, k: nat)
    requires i <= k <= |es|
    requires forall j :: i <= j < k ==> EventBus.Routable(reg, es[j])
    requires k < |es| ==> !EventBus.Routable(reg, es[k])
    ensures FirstUnroutable(reg, es, i) == k
    decreases k - i
  {
    if i < k {
      FirstUnroutableIs(reg, es, i + 1, k);
    }
  }

  /** When every event has a handler, forwarding hands over all of them. */
  lemma ForwardRoutable(reg: map<string, seq<HandlerId>>, es: seq<Event>)
    requires forall k :: 0 <= k < |es| ==> EventBus.Routable(reg, es[k])
    ensures Forwarded(reg, es) == es && ForwardOutcome(reg, es) == Ok(())
  {
    FirstUnroutableIs(reg, es, 0, |es|);
  }

  /** When `es[j]` is the first event without a handler, forwarding hands over
      `es[..j + 1]` and panics with that event's cause. */
  lemma ForwardPanicsAt(reg: map<string, seq<HandlerId>>, es: seq<Event>, j: nat)
    requires j < |es|
    requires forall k :: 0 <= k < j ==> EventBus.Routable(reg, es[k])
    requires !EventBus.Routable(reg, es[j])
    ensures Forwarded(reg, es) == es[..j + 1]
    ensures ForwardOutcome(reg, es) == Panic(NoEventHandlers(EventType(es[j])))
  {
    FirstUnroutableIs(reg, es, 0, j);
  }

  /** The first event without a handler in `a + b` is the first one in `a`, or
      else the first one in `b`. */
  lemma FirstUnroutableAppend(reg: map<string, seq<HandlerId>>, a: seq<Event>, b: seq<Event>)
    ensures FirstUnroutable(reg, a + b, 0) ==
              if FirstUnroutable(reg, a, 0) < |a| then FirstUnroutable(reg, a, 0)
              else |a| + FirstUnroutable(reg, b, 0)
  {
    FirstUnroutableSpec(reg, a, 0);
    FirstUnroutableSpec(reg, b, 0);
    var ka := FirstUnroutable(reg, a, 0);
    var kb := FirstUnroutable(reg, b, 0);
    if ka < |a| {
      assert (a + b)[ka] == a[ka];
      FirstUnroutableIs(reg, a + b, 0, ka);
    } else {
      forall j | 0 <= j < |a| + kb ensures EventBus.Routable(reg, (a + b)[j]) {
        if j < |a| { assert (a + b)[j] == a[j]; } else { assert (a + b)[j] == b[j - |a|]; }
      }
      if kb < |b| { assert (a + b)[|a| + kb] == b[kb]; }
      FirstUnroutableIs(reg, a + b, 0, |a| + kb);
    }
  }

  /** Once a list panics, whatever follows it is never handed over. */
  lemma ForwardAfterPanic(reg: map<string, seq<HandlerId>>, a: seq<Event>, b: seq<Event>)
    requires ForwardOutcome(reg, a).Panic?
    ensures Forwarded(reg, a + b) == Forwarded(reg, a)
    ensures ForwardOutcome(reg, a + b) == ForwardOutcome(reg, a)
  {
    FirstUnroutableAppend(reg, a, b);
    var ka := FirstUnroutable(reg, a, 0);
    assert (a + b)[..ka + 1] == a[..ka + 1];
    assert (a + b)[ka] == a[ka];
  }

  /** What each handler of `hs` reacts to `c` with, in order. */
  function ReactionsTo(hs: seq<CommandHandler>, c: Command): seq<seq<Event>>
  {
    seq(|hs|, i requires 0 <= i < |hs| => hs[i].react(c))
  }

  /** The list of `h` once the first `n` handlers of `hs` have handled the
      command, the `j`-th one appending `rs[j]` to its own list; `st` holds the
      lists from before. A handler registered twice appends twice. */
  function EventsAfter(hs: seq<CommandHandler>, rs: seq<seq<Event>>, n: nat,
                       st: map<CommandHandler, seq<Event>>, h: CommandHandler): seq<Event>
    requires n <= |hs| == |rs|
  {
    if n == 0 then EventsIn(st, h)
    else if hs[n - 1] == h then EventsAfter(hs, rs, n - 1, st, h) + rs[n - 1]
    else EventsAfter(hs, rs, n - 1, st, h)
  }

  /** The concatenation, in handler order, of what each of the first `n`
      handlers' `CollectEvents` returns right after its `Handle`. */
  function Collected(hs: seq<CommandHandler>, rs: seq<seq<Event>>, n: nat, st: map<CommandHandler, seq<Event>>): seq<Event>
    requires n <= |hs| == |rs|
  {
    if n == 0 then []
    else Collected(hs, rs, n - 1, st) + EventsAfter(hs, rs, n, st, hs[n - 1])
  }

  /** `Handle` only appends: whatever a handler held before the command stays,
      unchanged, at the front of its list. */
  lemma {:induction false} EventsAfterKeepsEarlier(hs: seq<CommandHandler>, rs: seq<seq<Event>>, n: nat,
                                                   st: map<CommandHandler, seq<Event>>, h: CommandHandler)
    requires n <= |hs| == |rs|
    ensures var before, after := EventsIn(st, h), EventsAfter(hs, rs, n, st, h);
            |before| <= |after| && after[..|before|] == before
  {
    if n > 0 {
      EventsAfterKeepsEarlier(hs, rs, n - 1, st, h);
      var prev := EventsAfter(hs, rs, n - 1, st, h);
      assert (prev + rs[n - 1])[..|EventsIn(st, h)|] == prev[..|EventsIn(st, h)|];
    }
  }

  /** What the earlier handlers collected reaches the event bus before anything
      a later handler collects: the first `m` handlers' share is a prefix of the
      first `n` handlers' share. */
  lemma {:induction false} CollectedPrefix(hs: seq<CommandHandler>, rs: seq<seq<Event>>, m: nat, n: nat,
                                           st: map<CommandHandler, seq<Event>>)
    requires m <= n <= |hs| == |rs|
    ensures var a, b := Collected(hs, rs, m, st), Collected(hs, rs, n, st);
            |a| <= |b| && b[..|a|] == a
    decreases n
  {
    if m < n {
      CollectedPrefix(hs, rs, m, n - 1, st);
      var a, b := Collected(hs, rs, m, st), Collected(hs, rs, n - 1, st);
      assert (b + EventsAfter(hs, rs, n, st, hs[n - 1]))[..|a|] == b[..|a|];
    }
  }

  /** Entry `j` says whether forwarding what the first `j + 1` handlers
      collected panics. The pointwise `ensures` spares the solver from
      unfolding the sequence comprehension inside `RunHandlers`. */
  function Panicking(hs: seq<CommandHandler>, rs: seq<seq<Event>>, reg: map<string, seq<HandlerId>>,
                     st: map<CommandHandler, seq<Event>>): (ps: seq<bool>)
    requires |hs| == |rs|
    ensures |ps| == |hs|
    ensures forall j :: 0 <= j < |hs| ==> ps[j] == ForwardOutcome(reg, Collected(hs, rs, j + 1, st)).Panic?
  {
    seq(|hs|, j requires 0 <= j < |hs| => ForwardOutcome(reg, Collected(hs, rs, j + 1, st)).Panic?)
  }

  /** How many handlers run, counting on from the `i`-th, when `ps` says which
      ones end in a panic: up to and including the first such one, or all. */
  function Stop(ps: seq<bool>, i: nat): (m: nat)
    requires i <= |ps|
    ensures i <= m <= |ps|
    decreases |ps| - i
  {
    if i == |ps| then |ps| else if ps[i] then i + 1 else Stop(ps, i + 1)
  }

  /** `Stop` runs past every handler that ends well and stops right after the
      first one that panics. */
  lemma {:induction false} StopIsFirstPanic(ps: seq<bool>, i: nat)
    requires i <= |ps|
    ensures i < |ps| ==> i < Stop(ps, i)
    ensures forall j :: i <= j < Stop(ps, i) - 1 ==> !ps[j]
    ensures Stop(ps, i) < |ps| ==> ps[Stop(ps, i) - 1]
    decreases |ps| - i
  {
    if i < |ps| && !ps[i] {
      StopIsFirstPanic(ps, i + 1);
    }
  }

  /** How many handlers of `hs` run before the cascade ends. */
  function Ran(hs: seq<CommandHandler>, rs: seq<seq<Event>>, reg: map<string, seq<HandlerId>>,
               st: map<CommandHandler, seq<Event>>): (m: nat)
    requires |hs| == |rs|
    ensures m <= |hs|
  {
    Stop(Panicking(hs, rs, reg, st), 0)
  }

  /** The concatenation of the first `n` reactions. */
  function Reactions(rs: seq<seq<Event>>, n: nat): seq<Event>
    requires n <= |rs|
  {
    if n == 0 then [] else Reactions(rs, n - 1) + rs[n - 1]
  }

  /** Once forwarding the events of the first `m` handlers panics, later
      handlers change neither what is forwarded nor how it ends. */
  lemma {:induction false} ForwardSettles(hs: seq<CommandHandler>, rs: seq<seq<Event>>, m: nat, n: nat,
                                          reg: map<string, seq<HandlerId>>, st: map<CommandHandler, seq<Event>>)
    requires m <= n <= |hs| == |rs|
    requires ForwardOutcome(reg, Collected(hs, rs, m, st)).Panic?
    ensures Forwarded(reg, Collected(hs, rs, n, st)) == Forwarded(reg, Collected(hs, rs, m, st))
    ensures ForwardOutcome(reg, Collected(hs, rs, n, st)) == ForwardOutcome(reg, Collected(hs, rs, m, st))
    decreases n - m
  {
    if m < n {
      ForwardSettles(hs, rs, m, n - 1, reg, st);
      ForwardAfterPanic(reg, Collected(hs, rs, n - 1, st), EventsAfter(hs, rs, n, st, hs[n - 1]));
    }
  }

  /** Every handler that runs before the last one leaves the cascade going:
      forwarding what the first `m` handlers collected goes through. */
  lemma RanGoesOnBefore(hs: seq<CommandHandler>, rs: seq<seq<Event>>, reg: map<string, seq<HandlerId>>,
                        st: map<CommandHandler, seq<Event>>, m: nat)
    requires |hs| == |rs|
    requires 0 < m < Ran(hs, rs, reg, st)
    ensures ForwardOutcome(reg, Collected(hs, rs, m, st)).Ok?
  {
    var ps := Panicking(hs, rs, reg, st);
    StopIsFirstPanic(ps, 0);
    assert !ps[m - 1];
  }

  /** When fewer than all handlers run, forwarding what they collected panics. */
  lemma RanStopsAtPanic(hs: seq<CommandHandler>, rs: seq<seq<Event>>, reg: map<string, seq<HandlerId>>,
                        st: map<CommandHandler, seq<Event>>)
    requires |hs| == |rs|
    requires Ran(hs, rs, reg, st) < |hs|
    ensures ForwardOutcome(reg, Collected(hs, rs, Ran(hs, rs, reg, st), st)).Panic?
  {
    var ps := Panicking(hs, rs, reg, st);
    StopIsFirstPanic(ps, 0);
    assert ps[Ran(hs, rs, reg, st) - 1];
  }

  /** A handler that is not among the first `n` keeps its list. */
  lemma {:induction false} EventsAfterLeavesOthers(hs: seq<CommandHandler>, rs: seq<seq<Event>>, n: nat,
                                                   st: map<CommandHandler, seq<Event>>, other: CommandHandler)
    requires n <= |hs| == |rs|
    requires forall j :: 0 <= j < n ==> hs[j] != other
    ensures EventsAfter(hs, rs, n, st, other) == EventsIn(st, other)
  {
    if n > 0 {
      EventsAfterLeavesOthers(hs, rs, n - 1, st, other);
    }
  }

  /** Distinct handlers that start with no events collect exactly their own
      reactions, so the event bus is offered the reactions in registration order. */
  lemma {:induction false} FreshHandlersCollectReactions(hs: seq<CommandHandler>, rs: seq<seq<Event>>, n: nat,
                                                         st: map<CommandHandler, seq<Event>>)
    requires n <= |hs| == |rs|
    requires forall j :: 0 <= j < n ==> EventsIn(st, hs[j]) == []
    requires forall j, k :: 0 <= j < k < n ==> hs[j] != hs[k]
    ensures Collected(hs, rs, n, st) == Reactions(rs, n)
  {
    if n > 0 {
      var h := hs[n - 1];
      FreshHandlersCollectReactions(hs, rs, n - 1, st);
      EventsAfterLeavesOthers(hs, rs, n - 1, st, h);
      assert EventsAfter(hs, rs, n, st, h) == EventsAfter(hs, rs, n - 1, st, h) + rs[n - 1];
      assert EventsAfter(hs, rs, n - 1, st, h) == [];
      assert EventsAfter(hs, rs, n, st, h) == rs[n - 1];
    }
  }

  /** A handler registered alone offers the event bus its whole list: what it
      had collected before, then what it reacts to the command with. */
  lemma LoneHandler(h: CommandHandler, c: Command)
    ensures Collected([h], ReactionsTo([h], c), 1, EventsOf([h])) == h.events + h.react(c)
  {
    var rs := ReactionsTo([h], c);
    assert EventsAfter([h], rs, 1, EventsOf([h]), h) == h.events + rs[0];
  }

  /** The same handler registered twice for one type: its second `CollectEvents`
      returns its earlier events again, so they are offered to the event bus twice. */
  lemma SameHandlerTwiceResends(h: CommandHandler, r: seq<Event>, st: map<CommandHandler, seq<Event>>)
    ensures Collected([h, h], [r, r], 2, st) == (EventsIn(st, h) + r) + (EventsIn(st, h) + r + r)
  {
    var once := EventsIn(st, h) + r;
    assert EventsAfter([h, h], [r, r], 1, st, h) == once;
    assert Collected([h, h], [r, r], 1, st) == [] + once;
  }

  /** After a list that goes through, forwarding goes on as it would alone. */
  lemma ForwardAfterOk(reg: map<string, seq<HandlerId>>, a: seq<Event>, b: seq<Event>)
    requires ForwardOutcome(reg, a) == Ok(())
    ensures Forwarded(reg, a) == a
    ensures Forwarded(reg, a + b) == a + Forwarded(reg, b)
    ensures ForwardOutcome(reg, a + b) == ForwardOutcome(reg, b)
  {
    FirstUnroutableAppend(reg, a, b);
    var kb := FirstUnroutable(reg, b, 0);
    if kb < |b| {
      assert (a + b)[..|a| + kb + 1] == a + b[..kb + 1];
      assert (a + b)[|a| + kb] == b[kb];
    }
  }

  /** Forwarding `evs` after `before` went through ends as forwarding `evs`
      alone does, and hands over, after `before`, what forwarding `evs` alone
      hands over. */
  lemma ForwardStep(reg: map<string, seq<HandlerId>>, before: seq<Event>, evs: seq<Event>, received: seq<Event>)
    requires ForwardOutcome(reg, before) == Ok(())
    ensures ForwardOutcome(reg, before + evs) == ForwardOutcome(reg, evs)
    ensures received + Forwarded(reg, before) + Forwarded(reg, evs) == received + Forwarded(reg, before + evs)
  {
    ForwardAfterOk(reg, before, evs);
    var sent := Forwarded(reg, evs);
    assert received + before + sent == received + (before + sent);
  }

  class DefaultCommandBus {
    const eventBus: EventBus.DefaultEventBus
    var handlers: map<string, seq<CommandHandler>>

    /** `DefaultCommandBus(eventBus)`: no handlers, events go to `eventBus`. */
    constructor (eventBus: EventBus.DefaultEventBus)
      ensures this.eventBus == eventBus && handlers == map[]
    {
      this.eventBus := eventBus;
      handlers := map[];
    }

    /** Appends `ch` to the handlers of `c`'s type name. */
    method Register(c: Command, ch: CommandHandler)
      modifies this
      ensures handlers == Append(old(handlers), TypeName(c), ch)
    {
      var typeName := TypeName(c);
      handlers := handlers[typeName := Lookup(handlers, typeName) + [ch]];
    }

    /** The inner loop of `handleCommand`: hands `events` to the event bus one by
        one, and stops at the first panic. */
    method ForwardEvents(events: seq<Event>) returns (o: Outcome)
      requires eventBus.Valid()
      modifies eventBus
      ensures eventBus.Valid() && eventBus.handlers == old(eventBus.handlers) && eventBus.earlier == old(eventBus.earlier)
      ensures o == ForwardOutcome(eventBus.handlers, events)
      ensures var sent := Forwarded(eventBus.handlers, events);
              && eventBus.received == old(eventBus.received) + sent
    {
      ghost var reg := eventBus.handlers;
      ghost var sent: seq<Event> := [];
      var j := 0;
      while j < |events|
        invariant 0 <= j <= |events|
        invariant sent == events[..j]
        invariant eventBus.Valid() && eventBus.handlers == reg && eventBus.earlier == old(eventBus.earlier)
        invariant eventBus.received == old(eventBus.received) + sent
        invariant forall k :: 0 <= k < j ==> EventBus.Routable(reg, events[k])
      {
        var e := events[j];
        var r := eventBus.Dispatch(e);
        sent := sent + [e];
        assert sent == events[..j + 1];
        if r.Panic? {
          ForwardPanicsAt(reg, events, j);
          return r;
        }
        assert EventBus.Routable(reg, events[j]);
        j := j + 1;
      }
      assert sent == events;
      ForwardRoutable(reg, events);
      o := Ok(());
    }

    /** One iteration of the outer loop of `handleCommand`: `ch` handles `c`,
        and what it then collects goes to the event bus. */
    method RunHandler(ch: CommandHandler, c: Command) returns (o: Outcome)
      requires eventBus.Valid()
      modifies ch, eventBus
      ensures eventBus.Valid() && eventBus.handlers == old(eventBus.handlers) && eventBus.earlier == old(eventBus.earlier)
      ensures ch.events == old(ch.events) + ch.react(c)
      ensures o == ForwardOutcome(eventBus.handlers, ch.events)
      ensures var sent := Forwarded(eventBus.handlers, ch.events);
              && eventBus.received == old(eventBus.received) + sent
    {
      var self := ch.Handle(c);
      var events := self.CollectEvents();
      o := ForwardEvents(events);
    }

    /** One turn of the outer loop of `handleCommand`: the `i`-th handler of
        `hs` handles `c` and its collected events go to the event bus. */
    method Advance(hs: seq<CommandHandler>, c: Command, ghost rs: seq<seq<Event>>,
                   ghost st: map<CommandHandler, seq<Event>>, i: nat,
                   ghost received0: seq<Event>) returns (o: Outcome)
      requires i < |hs| == |rs| && rs[i] == hs[i].react(c)
      requires forall h :: h in hs ==> h.events == EventsAfter(hs, rs, i, st, h)
      requires ForwardOutcome(eventBus.handlers, Collected(hs, rs, i, st)) == Ok(())
      requires eventBus.received == received0 + Forwarded(eventBus.handlers, Collected(hs, rs, i, st))
      requires eventBus.Valid()
      modifies eventBus, hs[i]
      ensures eventBus.Valid() && eventBus.handlers == old(eventBus.handlers) && eventBus.earlier == old(eventBus.earlier)
      ensures forall h :: h in hs ==> h.events == EventsAfter(hs, rs, i + 1, st, h)
      ensures o == ForwardOutcome(eventBus.handlers, Collected(hs, rs, i + 1, st))
      ensures eventBus.received == received0 + Forwarded(eventBus.handlers, Collected(hs, rs, i + 1, st))
    {
      ghost var reg := eventBus.handlers;
      ghost var before := Collected(hs, rs, i, st);
      o := RunHandler(hs[i], c);
      ghost var evs := hs[i].events;
      assert Collected(hs, rs, i + 1, st) == before + evs;
      ForwardStep(reg, before, evs, received0);
    }

    /** The outer loop of `handleCommand` over the handlers `hs`: each one
        handles `c` and its collected events go to the event bus, until the
        first panic. `n` is how many handlers ran. */
    method RunHandlers(hs: seq<CommandHandler>, c: Command, ghost rs: seq<seq<Event>>,
                       ghost st: map<CommandHandler, seq<Event>>) returns (o: Outcome, ghost n: nat)
      requires rs == ReactionsTo(hs, c) && st == EventsOf(hs)
      requires eventBus.Valid()
      modifies eventBus, hs
      ensures eventBus.Valid() && eventBus.handlers == old(eventBus.handlers) && eventBus.earlier == old(eventBus.earlier)
      ensures n == Ran(hs, rs, eventBus.handlers, st)
      ensures n == |hs| || o.Panic?
      ensures forall h :: h in hs ==> h.events == EventsAfter(hs, rs, n, st, h)
      ensures o == ForwardOutcome(eventBus.handlers, Collected(hs, rs, n, st))
      ensures eventBus.received == old(eventBus.received) + Forwarded(eventBus.handlers, Collected(hs, rs, n, st))
    {
      ghost var reg := eventBus.handlers;
      ghost var received0 := eventBus.received;
      ghost var ps := Panicking(hs, rs, reg, st);
      o := Ok(());
      var i := 0;
      while i < |hs|
        invariant 0 <= i <= |hs|
        invariant eventBus.Valid() && eventBus.handlers == reg && eventBus.earlier == old(eventBus.earlier) && o == Ok(())
        invariant forall h :: h in hs ==> h.events == EventsAfter(hs, rs, i, st, h)
        invariant o == ForwardOutcome(reg, Collected(hs, rs, i, st))
        invariant eventBus.received == received0 + Forwarded(reg, Collected(hs, rs, i, st))
        invariant Stop(ps, 0) == Stop(ps, i)
      {
        o := Advance(hs, c, rs, st, i, received0);
        if o.Panic? {
          assert Stop(ps, i) == i + 1;
          n := i + 1;
          return;
        }
        assert Stop(ps, i) == Stop(ps, i + 1);
        i := i + 1;
      }
      n := i;
    }

    /** Runs the handlers of `c`'s type name in registration order; each one's
        collected events go to the event bus, and the first panic ends the run.
        The registry itself never changes. */
    method HandleCommand(c: Command) returns (o: Outcome)
      requires eventBus.Valid()
      modifies eventBus, Lookup(handlers, TypeName(c))
      ensures unchanged(this)
      ensures eventBus.Valid() && eventBus.handlers == old(eventBus.handlers) && eventBus.earlier == old(eventBus.earlier)
      ensures var hs := Lookup(handlers, TypeName(c));
              var rs := ReactionsTo(hs, c);
              var st := old(EventsOf(Lookup(handlers, TypeName(c))));
              var collected := Collected(hs, rs, |hs|, st);
              && o == (if hs == [] then Panic(NoCommandHandlers(TypeName(c))) else ForwardOutcome(eventBus.handlers, collected))
              && (forall h :: h in hs ==> h.events == EventsAfter(hs, rs, Ran(hs, rs, eventBus.handlers, st), st, h))
              && eventBus.received == old(eventBus.received) + Forwarded(eventBus.handlers, collected)
    {
      var typeName := TypeName(c);
      var hs := Lookup(handlers, typeName);
      if |hs| == 0 {
        return Panic(NoCommandHandlers(typeName));
      }
      ghost var rs := ReactionsTo(hs, c);
      ghost var st := EventsOf(hs);
      ghost var n;
      o, n := RunHandlers(hs, c, rs, st);
      if n < |hs| {
        ForwardSettles(hs, rs, n, |hs|, eventBus.handlers, st);
      }
    }

    /** `Execute(c)`: the pipeline, on the caller's goroutine. */
    method Execute(c: Command) returns (o: Outcome)
      requires eventBus.Valid()
      modifies eventBus, Lookup(handlers, TypeName(c))
      ensures unchanged(this)
      ensures eventBus.Valid() && eventBus.handlers == old(eventBus.handlers) && eventBus.earlier == old(eventBus.earlier)
      ensures var hs := Lookup(handlers, TypeName(c));
              var rs := ReactionsTo(hs, c);
              var st := old(EventsOf(Lookup(handlers, TypeName(c))));
              var collected := Collected(hs, rs, |hs|, st);
              && o == (if hs == [] then Panic(NoCommandHandlers(TypeName(c))) else ForwardOutcome(eventBus.handlers, collected))
              && (forall h :: h in hs ==> h.events == EventsAfter(hs, rs, Ran(hs, rs, eventBus.handlers, st), st, h))
              && eventBus.received == old(eventBus.received) + Forwarded(eventBus.handlers, collected)
    {
      o := HandleCommand(c);
    }

    /** `Dispatch(c)`: the same pipeline, which Go runs on a new goroutine. */
    method Dispatch(c: Command) returns (o: Outcome)
      requires eventBus.Valid()
      modifies eventBus, Lookup(handlers, TypeName(c))
      ensures unchanged(this)
      ensures eventBus.Valid() && eventBus.handlers == old(eventBus.handlers) && eventBus.earlier == old(eventBus.earlier)
      ensures var hs := Lookup(handlers, TypeName(c));
              var rs := ReactionsTo(hs, c);
              var st := old(EventsOf(Lookup(handlers, TypeName(c))));
              var collected := Collected(hs, rs, |hs|, st);
              && o == (if hs == [] then Panic(NoCommandHandlers(TypeName(c))) else ForwardOutcome(eventBus.handlers, collected))
              && (forall h :: h in hs ==> h.events == EventsAfter(hs, rs, Ran(hs, rs, eventBus.handlers, st), st, h))
              && eventBus.received == old(eventBus.received) + Forwarded(eventBus.handlers, collected)
    {
      o := HandleCommand(c);
    }
  }

  /** The set-up of the examples' tests: an event bus with the one handler
      `listener` for `tag`, and a command bus on it with one fresh command
      handler, reacting with `react`, for the type name of `c`. */
  method SoleHandlerSetup(tag: string, listener: HandlerId, c: Command, react: Command -> seq<Event>)
    returns (commandBus: DefaultCommandBus, handler: CommandHandler)
    ensures fresh(commandBus) && fresh(commandBus.eventBus) && fresh(handler)
    ensures commandBus.eventBus.Valid()
    ensures commandBus.eventBus.earlier == [] && commandBus.eventBus.received == [] && commandBus.eventBus.trace == []
    ensures Lookup(commandBus.eventBus.handlers, tag) == [listener]
    ensures Lookup(commandBus.handlers, TypeName(c)) == [handler]
    ensures forall name :: name != TypeName(c) ==> Lookup(commandBus.handlers, name) == []
    ensures handler.react == react && handler.events == []
  {
    var eventBus := new EventBus.DefaultEventBus();
    eventBus.Register(tag, listener);
    commandBus := new DefaultCommandBus(eventBus);
    handler := new CommandHandler(react, []);
    commandBus.Register(c, handler);
  }

  /** `Execute(c)`, or `Dispatch(c)` when `async`, when `h` is the only handler
      of `c`'s type name and every event it will collect has a handler: `h`
      appends its reaction, and the event bus is handed its whole list, the
      events of earlier commands included. */
  method RunSoleHandler(bus: DefaultCommandBus, c: Command, h: CommandHandler, async: bool) returns (o: Outcome)
    requires bus.eventBus.Valid()
    requires Lookup(bus.handlers, TypeName(c)) == [h]
    requires forall e :: e in h.events + h.react(c) ==> EventBus.Routable(bus.eventBus.handlers, e)
    modifies bus.eventBus, h
    ensures o == Ok(())
    ensures h.events == old(h.events) + h.react(c)
    ensures bus.eventBus.Valid() && bus.eventBus.handlers == old(bus.eventBus.handlers)
    ensures bus.eventBus.earlier == old(bus.eventBus.earlier)
    ensures bus.eventBus.received == old(bus.eventBus.received) + (old(h.events) + h.react(c))
  {
    ghost var reg := bus.eventBus.handlers;
    ghost var rs := ReactionsTo([h], c);
    ghost var st := EventsOf([h]);
    ghost var collected := h.events + h.react(c);
    LoneHandler(h, c);
    assert Collected([h], rs, 1, st) == collected;
    ForwardRoutable(reg, collected);
    assert Ran([h], rs, reg, st) == 1 by {
      var ps := Panicking([h], rs, reg, st);
      assert !ps[0];
    }
    assert EventsAfter([h], rs, 1, st, h) == collected by {
      assert EventsAfter([h], rs, 0, st, h) == h.events;
    }
    if async {
      o := bus.Dispatch(c);
    } else {
      o := bus.Execute(c);
    }
  }

  /** A command whose type name has no handler panics before anything runs:
      the handler registered for another type name keeps its empty list, and
      the event bus is offered nothing and calls nothing. */
  method UnregisteredTypePanics(c: Command, other: Command, react: Command -> seq<Event>, tag: string, listener: HandlerId)
    returns (o: Outcome, calls: seq<Invocation>, kept: seq<Event>)
    requires TypeName(c) != TypeName(other)
    ensures o == Panic(NoCommandHandlers(TypeName(c)))
    ensures calls == [] && kept == []
  {
    var commandBus, handler := SoleHandlerSetup(tag, listener, other, react);
    var eventBus := commandBus.eventBus;
    assert Forwarded(eventBus.handlers, []) == [];
    o := commandBus.Execute(c);
    assert eventBus.received == [];
    calls := eventBus.trace;
    kept := handler.CollectEvents();
  }
}
