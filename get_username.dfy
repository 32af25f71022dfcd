/**
 * The username lookup example (examples/get-username): a stateless query
 * handler that answers a `GetUsernameQuery` from a fixed table of five users.
 */
module GetUsername {
  import opened Messages
  import QueryBus

  /** The fixed table of the handler: user ID to username. */
  const Usernames: map<int, string> := map[
    1 := "john_doe",
    2 := "jane_smith",
    3 := "bob_wilson",
    4 := "alice_johnson",
    5 := "charlie_brown"
  ]

  /** The payload of a lookup that finds nobody. */
  const UnknownUser := "unknown_user"

  /** `GetUsernameQueryHandler.Handle`: a known ID gives its username with
      success, any other ID gives `unknown_user` without; a query of another
      type fails the type assertion. No user in the table is called
      `unknown_user`, so the payload alone tells a hit from a miss. */
  function Handle(q: Query): (r: Result<QueryResult>)
    ensures !q.GetUsernameQuery? <==> r.Panic?
    ensures !q.GetUsernameQuery? ==> r.cause == FailedConversion("main.GetUsernameQuery")
    ensures q.GetUsernameQuery? ==> (r.value.success <==> 1 <= q.id <= 5)
    ensures q.GetUsernameQuery? && r.value.success ==> r.value.payload == Usernames[q.id]
    ensures q.GetUsernameQuery? && !r.value.success ==> r.value.payload == UnknownUser
    ensures q.GetUsernameQuery? ==> (r.value.success <==> r.value.payload != UnknownUser)
  {
    if !q.GetUsernameQuery? then Panic(FailedConversion("main.GetUsernameQuery"))
    else if q.id in Usernames then Ok(QueryResult(Usernames[q.id], true))
    else Ok(QueryResult(UnknownUser, false))
  }

  /** The example's test, through the query bus: the handler registered for
      `GetUsernameQuery` answers IDs 1 to 5 and 999 as the table says. */
  method AskThroughBus() returns (results: seq<Result<QueryResult>>)
    ensures results == [
      Ok(QueryResult("john_doe", true)),
      Ok(QueryResult("jane_smith", true)),
      Ok(QueryResult("bob_wilson", true)),
      Ok(QueryResult("alice_johnson", true)),
      Ok(QueryResult("charlie_brown", true)),
      Ok(QueryResult("unknown_user", false))
    ]
  {
    var queryBus := new QueryBus.DefaultQueryBus();
    queryBus.Register(GetUsernameQuery(0), Handle);
    results := [];
    var ids := [1, 2, 3, 4, 5, 999];
    for i := 0 to |ids|
      invariant queryBus.handlers == map["GetUsernameQuery" := Handle]
      invariant |results| == i
      invariant forall j :: 0 <= j < i ==> results[j] == Handle(GetUsernameQuery(ids[j]))
    {
      var r := queryBus.Ask(GetUsernameQuery(ids[i]));
      results := results + [r];
    }
  }
}
