/** client/src/utils/customFetch.ts: `fetch` with one silent refresh. The
    network is a parameter: `network(k, call)` is the reply to the `k`-th
    request this invocation makes (numbered from 0), so the replay after a
    refresh may be answered differently from the original. */
module CustomFetch {
  import opened Wrappers
  import opened Json
  import opened AuthEvents

  /** A request as handed to native `fetch`: the URL and its options. */
  datatype Call = Call(url: string, options: map<string, Value>)

  /** The part of a `Response` the wrapper reads. */
  datatype Reply = Reply(status: int)

  /** `response.ok`: a status in the range 200-299. */
  predicate Ok(r: Reply) {
    200 <= r.status <= 299
  }

  const RefreshUrl: string := "/api/auth/refresh-token"

  /** `defaultRequestInit` */
  const DefaultRequestInit: map<string, Value> :=
    map["headers" := Obj(map["Content-Type" := Str("application/json")]),
        "credentials" := Str("include")]

  /** The refresh request goes through native `fetch`, not through the
      wrapper, so it can never trigger a refresh of its own. */
  const RefreshCall: Call := Call(RefreshUrl, map["credentials" := Str("include")])

  /** `{ ...defaultRequestInit, ...init }`, where an omitted `init` (`None`)
      defaults to `defaultRequestInit`: a shallow merge in which every key of
      `init` wins. */
  function Options(init: Option<map<string, Value>>): (o: map<string, Value>)
    ensures "credentials" in o && "headers" in o
    ensures o["credentials"] == (if init.Some? && "credentials" in init.value then init.value["credentials"] else Str("include"))
    ensures o["headers"] == (if init.Some? && "headers" in init.value then init.value["headers"] else DefaultRequestInit["headers"])
    ensures init.Some? ==> forall k :: k in init.value ==> k in o && o[k] == init.value[k]
    ensures init.Some? ==> forall k :: k in o ==> k in init.value || k in DefaultRequestInit
    ensures init.None? ==> o == DefaultRequestInit
  {
    DefaultRequestInit + init.GetOr(DefaultRequestInit)
  }

  /** `customFetch(input, init)`. `calls` lists the requests made, in order;
      `notified` lists the `AUTH_FAILURE` listeners called, in order. */
  method Fetch(input: string, init: Option<map<string, Value>>, network: (nat, Call) -> Reply, events: Registry)
    returns (res: Reply, calls: seq<Call>, notified: seq<Listener>)
    ensures 1 <= |calls| <= 3
    ensures calls[0] == Call(input, Options(init))
    ensures network(0, calls[0]).status != 401 ==>
              calls == [calls[0]] && res == network(0, calls[0]) && notified == []
    ensures network(0, calls[0]).status == 401 && Ok(network(1, RefreshCall)) ==>
              calls == [calls[0], RefreshCall, calls[0]] && res == network(2, calls[0]) && notified == []
    ensures network(0, calls[0]).status == 401 && !Ok(network(1, RefreshCall)) ==>
              calls == [calls[0], RefreshCall] && res == network(0, calls[0]) && notified == events.listeners
  {
    var options := Options(init);
    var original := Call(input, options);
    calls := [original];
    notified := [];
    res := network(0, original);
    if res.status == 401 {
      calls := calls + [RefreshCall];
      var refreshResponse := network(1, RefreshCall);
      if Ok(refreshResponse) {
        calls := calls + [original];
        res := network(2, original);
      } else {
        notified := events.Emit();
      }
    }
  }
}
