/** Chains of `do_*` calls on one pipeline, as the tests write them
    (`pipeline.do_request_get("/users").do_validate_response_code(200)`),
    and what the model proves about them. Each call returns the object
    itself, so a chain is the calls applied in order to one state; the first
    call that raises ends the chain with the state it was called on. */
module Chaining {
  import opened Wrappers
  import opened Json
  import opened Http
  import opened Papiline

  /** One `do_*` call with its arguments. */
  datatype Call =
    | DataJson(data: Dict)
    | UpdateDataJson(patch: Dict)
    | Prepare(headers: Option<Dict>, cookies: Option<Dict>)
    | Request(verb: Verb, apiPath: string, transport: Transport)
    | CheckSchema(schema: Value, conforms: (Option<Value>, Value) -> bool)
    | CheckStatus(expected: int)
    | Init(host: string, protocol: string, port: string, urlPrefix: string)
  {
    predicate WritesBody() {
      DataJson? || UpdateDataJson?
    }

    /** Calls that never raise in the model, where `serialize` and `join`
        are total (the real `json.dumps` and `urljoin` can raise). */
    predicate NeverRaises() {
      DataJson? || UpdateDataJson? || Prepare? || Init?
    }
  }

  /** The effect of one call: the new state, or what it raised. */
  function Apply(c: Context, serialize: Dict -> string, join: (string, string) -> string,
                 call: Call): (r: Result<Context, Failure>)
    ensures r.Failure? ==> call.Request? || call.CheckSchema? || call.CheckStatus?
    ensures r.Failure? ==> !call.NeverRaises()
    ensures r.Success? && (call.CheckSchema? || call.CheckStatus?) ==> r.value == c
    ensures r.Success? && !call.Request? ==> SameResponse(c, r.value)
    ensures r.Success? && !call.WritesBody() ==> SameBody(c, r.value)
  {
    match call
    case DataJson(d) => Success(PrepareDataJson(c, serialize, d))
    case UpdateDataJson(p) => Success(PrepareUpdateDataJson(c, serialize, p))
    case Prepare(h, k) => Success(PrepareRequest(c, h, k))
    case Request(verb, path, transport) => Perform(c, join, verb, path, transport)
    case CheckSchema(schema, conforms) =>
      (match ValidateSchema(c, schema, conforms)
       case None => Success(c)
       case Some(f) => Failure(f))
    case CheckStatus(e) =>
      (match ValidateResponseCode(c, e)
       case None => Success(c)
       case Some(f) => Failure(f))
    case Init(host, protocol, port, prefix) => Success(PipelineInit(c, join, host, protocol, port, prefix))
  }

  /** Where a chain leaves the object, and the exception it raised, if any. */
  datatype Outcome = Outcome(state: Context, raised: Option<Failure>)

  function Run(c: Context, serialize: Dict -> string, join: (string, string) -> string,
               calls: seq<Call>): (r: Outcome)
    ensures r.raised.Some? ==> calls != []
    ensures (forall i | 0 <= i < |calls| :: calls[i].NeverRaises()) ==> r.raised.None?
    decreases |calls|
  {
    if calls == [] then Outcome(c, None)
    else
      match Apply(c, serialize, join, calls[0])
      case Failure(f) => Outcome(c, Some(f))
      case Success(next) => Run(next, serialize, join, calls[1..])
  }

  // ---------------------------------------------------------------------
  // Single calls and pairs of calls

  /** Setting a body and then merging into it gives the merged body and its
      serialization. */
  lemma PrepareThenUpdate(c: Context, serialize: Dict -> string, d1: Dict, d2: Dict)
    ensures var r := PrepareUpdateDataJson(PrepareDataJson(c, serialize, d1), serialize, d2);
            && r.requestData == Update(d1, d2)
            && r.requestDataRaw == Some(serialize(Update(d1, d2)))
  {
  }

  /** Two merges in a row are one merge with the two patches merged. */
  lemma UpdateTwice(c: Context, serialize: Dict -> string, p1: Dict, p2: Dict)
    ensures PrepareUpdateDataJson(PrepareUpdateDataJson(c, serialize, p1), serialize, p2)
         == PrepareUpdateDataJson(c, serialize, Update(p1, p2))
  {
    UpdateUpdate(c.requestData, p1, p2);
  }

  /** Setting the body forgets every earlier body. */
  lemma PrepareDataForgets(c: Context, serialize: Dict -> string, p: Dict, d: Dict)
    ensures PrepareDataJson(PrepareUpdateDataJson(c, serialize, p), serialize, d)
         == PrepareDataJson(c, serialize, d)
  {
  }

  /** Headers and cookies are replaced, not merged: only the last call counts. */
  lemma PrepareRequestOverrides(c: Context, h1: Option<Dict>, k1: Option<Dict>,
                                h2: Option<Dict>, k2: Option<Dict>)
    ensures PrepareRequest(PrepareRequest(c, h1, k1), h2, k2) == PrepareRequest(c, h2, k2)
  {
  }

  /** A second response whose body parses leaves no trace of the first. */
  lemma LastResponseWins(c: Context, first: Response, second: Response)
    requires second.json.Some?
    ensures Finalize(Finalize(c, first), second) == Finalize(c, second)
  {
  }

  /** A second response whose body does not parse keeps the first one's
      parsed body, while its raw text and status code replace the first's. */
  lemma StaleParsedBody(c: Context, first: Response, second: Response)
    requires first.json.Some? && second.json.None?
    ensures var r := Finalize(Finalize(c, first), second);
            && r.responseData == first.json
            && r.responseDataRaw == Some(Text.StripNewlines(second.text))
            && r.statusCode == Some(second.status)
  {
  }

  /** The status check after a request passes exactly for the status the
      transport returned. */
  lemma StatusCheckAfterRequest(c: Context, join: (string, string) -> string, verb: Verb,
                                apiPath: string, transport: Transport, expected: int)
    requires transport(Outgoing(c, join, verb, apiPath)).Success?
    ensures var after := Perform(c, join, verb, apiPath, transport).value;
            (ValidateResponseCode(after, expected).None?
             <==> expected == transport(Outgoing(c, join, verb, apiPath)).value.status)
  {
  }

  /** Initialising again sets the target from the new arguments alone. */
  lemma InitOverrides(c: Context, join: (string, string) -> string,
                      h1: string, pr1: string, po1: string, u1: string,
                      h2: string, pr2: string, po2: string, u2: string)
    ensures PipelineInit(PipelineInit(c, join, h1, pr1, po1, u1), join, h2, pr2, po2, u2)
         == PipelineInit(c, join, h2, pr2, po2, u2)
  {
  }

  // ---------------------------------------------------------------------
  // Whole chains

  /** A chain is its prefix followed by the rest, unless the prefix raised. */
  lemma {:induction false} RunAppend(c: Context, serialize: Dict -> string,
                                     join: (string, string) -> string, a: seq<Call>, b: seq<Call>)
    ensures Run(c, serialize, join, a + b)
         == var first := Run(c, serialize, join, a);
            if first.raised.Some? then first else Run(first.state, serialize, join, b)
    decreases |a|
  {
    if a == [] {
      assert a + b == b;
    } else {
      assert (a + b)[0] == a[0];
      assert (a + b)[1..] == a[1..] + b;
      match Apply(c, serialize, join, a[0]) {
        case Failure(_) =>
        case Success(next) => RunAppend(next, serialize, join, a[1..], b);
      }
    }
  }

  /** Once the raw body is in sync, every chain keeps it in sync. */
  lemma {:induction false} RunKeepsSynced(c: Context, serialize: Dict -> string,
                                          join: (string, string) -> string, calls: seq<Call>)
    requires Synced(c, serialize)
    ensures Synced(Run(c, serialize, join, calls).state, serialize)
    decreases |calls|
  {
    if calls != [] {
      match Apply(c, serialize, join, calls[0]) {
        case Failure(_) =>
        case Success(next) => RunKeepsSynced(next, serialize, join, calls[1..]);
      }
    }
  }

  /** A chain that ran to the end and set or merged the body at some point
      leaves the raw body in sync, whatever state it started from. */
  lemma {:induction false} RunSyncsAfterData(c: Context, serialize: Dict -> string,
                                             join: (string, string) -> string, calls: seq<Call>, i: nat)
    requires i < |calls| && calls[i].WritesBody()
    requires Run(c, serialize, join, calls).raised.None?
    ensures Synced(Run(c, serialize, join, calls).state, serialize)
    decreases |calls|
  {
    match Apply(c, serialize, join, calls[0]) {
      case Failure(_) =>
      case Success(next) =>
        if i == 0 {
          RunKeepsSynced(next, serialize, join, calls[1..]);
        } else {
          RunSyncsAfterData(next, serialize, join, calls[1..], i - 1);
        }
    }
  }

  /** A chain that issues no request leaves the response fields as they were. */
  lemma {:induction false} RunWithoutRequest(c: Context, serialize: Dict -> string,
                                             join: (string, string) -> string, calls: seq<Call>)
    requires forall i | 0 <= i < |calls| :: !calls[i].Request?
    ensures SameResponse(c, Run(c, serialize, join, calls).state)
    decreases |calls|
  {
    if calls != [] {
      match Apply(c, serialize, join, calls[0]) {
        case Failure(_) =>
        case Success(next) => RunWithoutRequest(next, serialize, join, calls[1..]);
      }
    }
  }

  /** A chain that never sets or merges the body leaves it, and its raw form,
      as they were. */
  lemma {:induction false} RunWithoutData(c: Context, serialize: Dict -> string,
                                          join: (string, string) -> string, calls: seq<Call>)
    requires forall i | 0 <= i < |calls| :: !calls[i].WritesBody()
    ensures SameBody(c, Run(c, serialize, join, calls).state)
    decreases |calls|
  {
    if calls != [] {
      match Apply(c, serialize, join, calls[0]) {
        case Failure(_) =>
        case Success(next) => RunWithoutData(next, serialize, join, calls[1..]);
      }
    }
  }

  /** The pipeline the tests run against (the `Chain("localhost", port="8081")`
      fixture): initialised for `localhost` on port 8081 with the default
      protocol and prefix, and otherwise as a new object. */
  function TestPipeline(join: (string, string) -> string): (r: Context)
    ensures r.host == Some("localhost") && r.protocol == "http"
    ensures r.port == Some("8081") && r.urlPrefix == Some("/")
    ensures r.baseHttpPath == Some(join("http://localhost:8081", "/"))
    ensures SameBody(Initial, r) && SameMeta(Initial, r) && SameResponse(Initial, r)
  {
    assert Origin("http", "localhost", "8081") == "http://localhost:8081";
    PipelineInit(Initial, join, "localhost", "http", "8081", "/")
  }

  /** The chain of `test_validate_response_code`: GET `/users` answered with
      status 200, then the status check for 200, passes; the call went to the
      prefix-joined base path with no query string and the default headers. */
  lemma GetUsersThenCheck200(serialize: Dict -> string, join: (string, string) -> string,
                             transport: Transport, body: string, users: Value)
    requires transport(HttpRequest(Get, join(join("http://localhost:8081", "/"), "/users"),
                                   None, None, Some(map[]), Some(map[])))
          == Success(Response(200, body, Some(users)))
    ensures var out := Run(TestPipeline(join), serialize, join,
                           [Request(Get, "/users", transport), CheckStatus(200)]);
            out.raised.None? && out.state.statusCode == Some(200) && out.state.responseData == Some(users)
  {
    var start := TestPipeline(join);
    var call := HttpRequest(Get, join(join("http://localhost:8081", "/"), "/users"),
                            None, None, Some(map[]), Some(map[]));
    assert Outgoing(start, join, Get, "/users") == call;
    var fetched := Finalize(start, Response(200, body, Some(users)));
    assert Apply(start, serialize, join, Request(Get, "/users", transport)) == Success(fetched);
    assert Apply(fetched, serialize, join, CheckStatus(200)) == Success(fetched);
    assert Run(fetched, serialize, join, [CheckStatus(200)]) == Outcome(fetched, None);
    assert [Request(Get, "/users", transport), CheckStatus(200)][1..] == [CheckStatus(200)];
  }

  /** The same chain with a status other than the expected one raises the
      assertion error, whether or not the body parsed, and leaves the fresh
      response in place. */
  lemma GetUsersThenCheckMismatch(serialize: Dict -> string, join: (string, string) -> string,
                                  transport: Transport, status: int, body: string,
                                  json: Option<Value>)
    requires status != 200
    requires transport(HttpRequest(Get, join(join("http://localhost:8081", "/"), "/users"),
                                   None, None, Some(map[]), Some(map[])))
          == Success(Response(status, body, json))
    ensures var out := Run(TestPipeline(join), serialize, join,
                           [Request(Get, "/users", transport), CheckStatus(200)]);
            && out.raised == Some(AssertionError(200, Some(status)))
            && out.state.statusCode == Some(status)
  {
    var start := TestPipeline(join);
    var call := HttpRequest(Get, join(join("http://localhost:8081", "/"), "/users"),
                            None, None, Some(map[]), Some(map[]));
    assert Outgoing(start, join, Get, "/users") == call;
    var fetched := Finalize(start, Response(status, body, json));
    assert Apply(start, serialize, join, Request(Get, "/users", transport)) == Success(fetched);
    assert Apply(fetched, serialize, join, CheckStatus(200)) == Failure(AssertionError(200, Some(status)));
    assert Run(fetched, serialize, join, [CheckStatus(200)]) == Outcome(fetched, Some(AssertionError(200, Some(status))));
    assert [Request(Get, "/users", transport), CheckStatus(200)][1..] == [CheckStatus(200)];
  }

  /** The chain of `test_validate_schema`: headers set without cookies, GET
      `/users`, the status check and the schema check all pass when the
      validator accepts the parsed body; the GET carried those headers and no
      cookies at all, since the omitted argument became `None`. */
  lemma HeadersGetCheckSchema(serialize: Dict -> string, join: (string, string) -> string,
                              transport: Transport, contentType: Value, body: string, users: Value,
                              schema: Value, conforms: (Option<Value>, Value) -> bool)
    requires transport(HttpRequest(Get, join(join("http://localhost:8081", "/"), "/users"),
                                   None, None, Some(map["Content-Type" := contentType]), None))
          == Success(Response(200, body, Some(users)))
    requires conforms(Some(users), schema)
    ensures var headers := Some(map["Content-Type" := contentType]);
            var call := Outgoing(PrepareRequest(TestPipeline(join), headers, None), join, Get, "/users");
            && call.url == join(join("http://localhost:8081", "/"), "/users")
            && call.headers == headers && call.cookies == None
            && var calls := [Prepare(headers, None), Request(Get, "/users", transport),
                             CheckStatus(200), CheckSchema(schema, conforms)];
               Run(TestPipeline(join), serialize, join, calls).raised.None?
  {
    var start := TestPipeline(join);
    var headers := Some(map["Content-Type" := contentType]);
    var prepared := PrepareRequest(start, headers, None);
    assert Outgoing(prepared, join, Get, "/users")
        == HttpRequest(Get, join(join("http://localhost:8081", "/"), "/users"), None, None, headers, None);
    var fetched := Finalize(prepared, Response(200, body, Some(users)));
    assert Apply(prepared, serialize, join, Request(Get, "/users", transport)) == Success(fetched);
    var tail := [CheckStatus(200), CheckSchema(schema, conforms)];
    assert Run(fetched, serialize, join, tail[1..]).raised.None?;
    assert Run(fetched, serialize, join, tail).raised.None?;
    RunAppend(start, serialize, join, [Prepare(headers, None), Request(Get, "/users", transport)], tail);
  }
}
