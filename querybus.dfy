/**
 * The query bus (querybus/querybus.go): at most one handler per unqualified
 * query type name, and a later registration replaces an earlier one. `Ask`
 * hands the query to that handler and returns what it returns.
 *
 * A query handler is stateless in the examples, so it is modelled as a
 * function from a query to the result it returns or the panic it raises.
 */
module QueryBus {
  import opened Messages

  type QueryHandler = Query -> Result<QueryResult>

  class DefaultQueryBus {
    var handlers: map<string, QueryHandler>

    /** `NewDefault()`: a bus with no handlers. */
    constructor ()
      ensures handlers == map[]
    {
      handlers := map[];
    }

    /** Makes `qh` the one handler of `q`'s type name, replacing any earlier one. */
    method Register(q: Query, qh: QueryHandler)
      modifies this
      ensures handlers == old(handlers)[QueryTypeName(q) := qh]
    {
      handlers := handlers[QueryTypeName(q) := qh];
    }

    /** Hands `q` to the handler of its type name and returns its result as it
        is; panics when the type name has no handler. The registry is only read. */
    method Ask(q: Query) returns (r: Result<QueryResult>)
      ensures QueryTypeName(q) !in handlers ==> r == Panic(NoQueryHandler(QueryTypeName(q)))
      ensures QueryTypeName(q) in handlers ==> r == handlers[QueryTypeName(q)](q)
    {
      var typeName := QueryTypeName(q);
      if typeName !in handlers {
        return Panic(NoQueryHandler(typeName));
      }
      var qh := handlers[typeName];
      r := qh(q);
    }
  }

  /** Two registrations for one query type name: `Ask` uses the later handler,
      for any query of that type name. */
  method LastRegistrationWins(q1: Query, q2: Query, h1: QueryHandler, h2: QueryHandler)
    returns (r: Result<QueryResult>)
    requires QueryTypeName(q1) == QueryTypeName(q2)
    ensures r == h2(q2)
  {
    var bus := new DefaultQueryBus();
    bus.Register(q1, h1);
    bus.Register(q1, h2);
    r := bus.Ask(q2);
  }

  /** A registration for another type name does not answer a query, and a
      fresh bus answers nothing. */
  method OtherTypeNamePanics(q: Query, other: Query, h: QueryHandler) returns (r: Result<QueryResult>)
    requires QueryTypeName(other) != QueryTypeName(q)
    ensures r == Panic(NoQueryHandler(QueryTypeName(q)))
  {
    var bus := new DefaultQueryBus();
    bus.Register(other, h);
    r := bus.Ask(q);
  }
}
