/** The pipeline object of papiline: one mutable record of request and
    response state (`Context`), the four groups of chainable `do_*` operations
    that overwrite its fields, and the `Pipeline` class that fuses them.

    `json.dumps` and `urllib.parse.urljoin` are foreign; the pipeline carries
    them as the uninterpreted functions `serialize` and `join`. */
module Papiline {
  import opened Wrappers
  import opened Json
  import opened Text
  import opened Http

  /** The ways a `do_*` call can raise. */
  datatype Failure =
    | TransportError(reason: string)                   // propagated from `requests`
    | SchemaValidationError                            // raised by `jsonschema.validate`
    | AssertionError(expected: int, actual: Option<int>) // the status-code `assert`

  /** The value of every field of the pipeline object at one moment. */
  datatype Context = Context(
    requestData: Dict,
    requestDataRaw: Option<string>,
    headers: Option<Dict>,
    cookies: Option<Dict>,
    response: Option<Response>,
    responseData: Option<Value>,
    responseDataRaw: Option<string>,
    statusCode: Option<int>,
    host: Option<string>,
    protocol: string,
    port: Option<string>,
    urlPrefix: Option<string>,
    baseHttpPath: Option<string>)

  /** The class-level defaults a new `Pipeline()` starts from. */
  const Initial: Context :=
    Context(map[], None, Some(map[]), Some(map[]), None, None, None, None,
            None, "http", None, None, None)

  /** The raw request body is the serialization of the request body. */
  predicate Synced(c: Context, serialize: Dict -> string) {
    c.requestDataRaw == Some(serialize(c.requestData))
  }

  /** Field groups, for saying what an operation leaves alone. */
  predicate SameBody(a: Context, b: Context) {
    a.requestData == b.requestData && a.requestDataRaw == b.requestDataRaw
  }

  predicate SameMeta(a: Context, b: Context) {
    a.headers == b.headers && a.cookies == b.cookies
  }

  predicate SameResponse(a: Context, b: Context) {
    && a.response == b.response
    && a.responseData == b.responseData
    && a.responseDataRaw == b.responseDataRaw
    && a.statusCode == b.statusCode
  }

  predicate SameTarget(a: Context, b: Context) {
    && a.host == b.host && a.protocol == b.protocol && a.port == b.port
    && a.urlPrefix == b.urlPrefix && a.baseHttpPath == b.baseHttpPath
  }

  // ---------------------------------------------------------------------
  // DoPrepareData

  /** `do_prepare_data_json`: the body is replaced and its raw form re-synced. */
  function PrepareDataJson(c: Context, serialize: Dict -> string, data: Dict): (r: Context)
    ensures r.requestData == data && Synced(r, serialize)
    ensures SameMeta(c, r) && SameResponse(c, r) && SameTarget(c, r)
  {
    c.(requestData := data, requestDataRaw := Some(serialize(data)))
  }

  /** `do_prepare_update_data_json`: keys of the patch take the patch's values,
      every other old key keeps its value, and the raw form is re-synced. */
  function PrepareUpdateDataJson(c: Context, serialize: Dict -> string, patch: Dict): (r: Context)
    ensures r.requestData.Keys == c.requestData.Keys + patch.Keys
    ensures forall k | k in patch :: r.requestData[k] == patch[k]
    ensures forall k | k in c.requestData && k !in patch :: r.requestData[k] == c.requestData[k]
    ensures Synced(r, serialize)
    ensures SameMeta(c, r) && SameResponse(c, r) && SameTarget(c, r)
  {
    var merged := Update(c.requestData, patch);
    c.(requestData := merged, requestDataRaw := Some(serialize(merged)))
  }

  // ---------------------------------------------------------------------
  // DoPrepareRequest

  /** `do_prepare_request`: headers and cookies are both replaced wholesale,
      an omitted one by `None`, never merged with or kept from before. */
  function PrepareRequest(c: Context, headers: Option<Dict>, cookies: Option<Dict>): (r: Context)
    ensures r.headers == headers && r.cookies == cookies
    ensures SameBody(c, r) && SameResponse(c, r) && SameTarget(c, r)
  {
    c.(headers := headers, cookies := cookies)
  }

  // ---------------------------------------------------------------------
  // DoRequest

  /** `urljoin(base_http_path, api_path)`; `urljoin` returns the path itself
      when the base is `None`, as it is before `do_pipeline_init`. */
  function Url(c: Context, join: (string, string) -> string, apiPath: string): (r: string)
    ensures c.baseHttpPath.None? ==> r == apiPath
    ensures c.baseHttpPath.Some? ==> r == join(c.baseHttpPath.value, apiPath)
  {
    match c.baseHttpPath
    case None => apiPath
    case Some(base) => join(base, apiPath)
  }

  /** The call a verb method hands to the transport. */
  function Outgoing(c: Context, join: (string, string) -> string, verb: Verb, apiPath: string): (r: HttpRequest)
    ensures r.verb == verb && r.url == Url(c, join, apiPath)
    ensures r.headers == c.headers && r.cookies == c.cookies
    ensures r.params == (if verb == Get then c.requestDataRaw else None)
    ensures r.data == (if verb in {Post, Patch} then c.requestDataRaw else None)
  {
    BuildRequest(verb, Url(c, join, apiPath), c.requestDataRaw, c.headers, c.cookies)
  }

  /** Storing `response` and then `__finalize_request`: the parsed body is
      taken when it parses and otherwise left as it was, the raw text is
      stored without line feeds, and the status code is stored. Nothing is
      reset beforehand, and the request side is not touched. */
  function Finalize(c: Context, resp: Response): (r: Context)
    ensures r.response == Some(resp)
    ensures resp.json.Some? ==> r.responseData == resp.json
    ensures resp.json.None? ==> r.responseData == c.responseData
    ensures r.responseDataRaw == Some(StripNewlines(resp.text))
    ensures '\n' !in r.responseDataRaw.value
    ensures |r.responseDataRaw.value| == |resp.text| - Occurrences(resp.text, '\n')
    ensures r.statusCode == Some(resp.status)
    ensures SameBody(c, r) && SameMeta(c, r) && SameTarget(c, r)
  {
    var parsed := match resp.json
      case Some(v) => Some(v)
      case None => c.responseData;
    c.(response := Some(resp), responseData := parsed,
       responseDataRaw := Some(StripNewlines(resp.text)), statusCode := Some(resp.status))
  }

  /** A whole verb method: the call built from the current state goes out;
      a transport error propagates and changes nothing, a response is finalized. */
  function Perform(c: Context, join: (string, string) -> string, verb: Verb, apiPath: string,
                   transport: Transport): (r: Result<Context, Failure>)
    ensures r.Success? <==> transport(Outgoing(c, join, verb, apiPath)).Success?
    ensures r.Success? ==> r.value == Finalize(c, transport(Outgoing(c, join, verb, apiPath)).value)
    ensures r.Failure? ==> r.error == TransportError(transport(Outgoing(c, join, verb, apiPath)).error)
  {
    match transport(Outgoing(c, join, verb, apiPath))
    case Failure(e) => Failure(TransportError(e))
    case Success(resp) => Success(Finalize(c, resp))
  }

  // ---------------------------------------------------------------------
  // DoValidate

  /** `do_validate_schema`: the verdict of `jsonschema.validate` on the parsed
      body (`None` is JSON null), raised as is. */
  function ValidateSchema(c: Context, schema: Value, conforms: (Option<Value>, Value) -> bool): (r: Option<Failure>)
    ensures r.None? <==> conforms(c.responseData, schema)
    ensures r.Some? ==> r.value == SchemaValidationError
  {
    if conforms(c.responseData, schema) then None else Some(SchemaValidationError)
  }

  /** `do_validate_response_code`: passes exactly when the stored status code
      equals the expected one (an unset code never does). */
  function ValidateResponseCode(c: Context, expected: int): (r: Option<Failure>)
    ensures r.None? <==> c.statusCode == Some(expected)
    ensures r.Some? ==> r.value == AssertionError(expected, c.statusCode)
  {
    if c.statusCode == Some(expected) then None else Some(AssertionError(expected, c.statusCode))
  }

  // ---------------------------------------------------------------------
  // Pipeline

  /** The string `do_pipeline_init` joins the URL prefix onto. */
  function Origin(protocol: string, host: string, port: string): (r: string)
    ensures |r| == |protocol| + |host| + |port| + 4
    ensures r[..|protocol|] == protocol && r[|protocol|..|protocol| + 3] == "://"
    ensures r[|protocol| + 3..|protocol| + 3 + |host|] == host
    ensures r[|r| - |port| - 1] == ':' && r[|r| - |port|..] == port
  {
    protocol + "://" + host + ":" + port
  }

  /** `do_pipeline_init`: the target fields are set and the base path is the
      prefix joined onto `protocol://host:port`; nothing else changes. */
  function PipelineInit(c: Context, join: (string, string) -> string, host: string,
                        protocol: string, port: string, urlPrefix: string): (r: Context)
    ensures r.host == Some(host) && r.protocol == protocol
    ensures r.port == Some(port) && r.urlPrefix == Some(urlPrefix)
    ensures r.baseHttpPath == Some(join(Origin(protocol, host, port), urlPrefix))
    ensures SameBody(c, r) && SameMeta(c, r) && SameResponse(c, r)
  {
    c.(host := Some(host), protocol := protocol, port := Some(port), urlPrefix := Some(urlPrefix),
       baseHttpPath := Some(join(Origin(protocol, host, port), urlPrefix)))
  }

  /** The object `Pipeline()` creates: the fields of `Context`, with the
      mixins' `do_*` methods, each of which returns the object itself. */
  class Pipeline {
    const serialize: Dict -> string
    const join: (string, string) -> string

    var requestData: Dict
    var requestDataRaw: Option<string>
    var headers: Option<Dict>
    var cookies: Option<Dict>
    var response: Option<Response>
    var responseData: Option<Value>
    var responseDataRaw: Option<string>
    var statusCode: Option<int>
    var host: Option<string>
    var protocol: string
    var port: Option<string>
    var urlPrefix: Option<string>
    var baseHttpPath: Option<string>

    /** The current value of every field. */
    function State(): Context
      reads this
    {
      Context(requestData, requestDataRaw, headers, cookies, response, responseData,
              responseDataRaw, statusCode, host, protocol, port, urlPrefix, baseHttpPath)
    }

    predicate InSync()
      reads this
    {
      Synced(State(), serialize)
    }

    constructor (serialize: Dict -> string, join: (string, string) -> string)
      ensures this.serialize == serialize && this.join == join
      ensures State() == Initial
    {
      this.serialize := serialize;
      this.join := join;
      requestData, requestDataRaw := map[], None;
      headers, cookies := Some(map[]), Some(map[]);
      response, responseData, responseDataRaw, statusCode := None, None, None, None;
      host, protocol, port, urlPrefix, baseHttpPath := None, "http", None, None, None;
    }

    method DoPrepareDataJson(jsonData: Dict) returns (self: Pipeline)
      modifies this
      ensures self == this
      ensures State() == PrepareDataJson(old(State()), serialize, jsonData)
      ensures requestData == jsonData && InSync()
    {
      requestData := jsonData;
      requestDataRaw := Some(serialize(requestData));
      self := this;
    }

    method DoPrepareUpdateDataJson(newData: Dict) returns (self: Pipeline)
      modifies this
      ensures self == this
      ensures State() == PrepareUpdateDataJson(old(State()), serialize, newData)
      ensures InSync()
    {
      requestData := Update(requestData, newData);
      requestDataRaw := Some(serialize(requestData));
      self := this;
    }

    method DoPrepareRequest(headers: Option<Dict> := None, cookies: Option<Dict> := None)
      returns (self: Pipeline)
      modifies this
      ensures self == this
      ensures State() == PrepareRequest(old(State()), headers, cookies)
      ensures old(InSync()) ==> InSync()
    {
      this.headers := headers;
      this.cookies := cookies;
      self := this;
    }

    /** `__finalize_request`, run after `response` has been stored. */
    method FinalizeRequest()
      requires response.Some?
      modifies this
      ensures State() == Finalize(old(State()), old(response.value))
    {
      var resp := response.value;
      match resp.json {
        case Some(v) => responseData := Some(v);
        case None =>
      }
      responseDataRaw := Some(StripNewlines(resp.text));
      statusCode := Some(resp.status);
    }

    /** The part the four verb methods share. */
    method Send(verb: Verb, apiPath: string, transport: Transport) returns (r: Result<Pipeline, Failure>)
      modifies this
      ensures match Perform(old(State()), join, verb, apiPath, transport)
              case Success(c) => r == Success(this) && State() == c
              case Failure(e) => r == Failure(e) && State() == old(State())
      ensures old(InSync()) ==> InSync()
    {
      var call := BuildRequest(verb, Url(State(), join, apiPath), requestDataRaw, headers, cookies);
      var outcome := transport(call);
      match outcome {
        case Failure(e) =>
          r := Failure(TransportError(e));
        case Success(resp) =>
          response := Some(resp);
          FinalizeRequest();
          r := Success(this);
      }
    }

    method DoRequestGet(apiPath: string, transport: Transport) returns (r: Result<Pipeline, Failure>)
      modifies this
      ensures match Perform(old(State()), join, Get, apiPath, transport)
              case Success(c) => r == Success(this) && State() == c
              case Failure(e) => r == Failure(e) && State() == old(State())
    {
      r := Send(Get, apiPath, transport);
    }

    method DoRequestPost(apiPath: string, transport: Transport) returns (r: Result<Pipeline, Failure>)
      modifies this
      ensures match Perform(old(State()), join, Post, apiPath, transport)
              case Success(c) => r == Success(this) && State() == c
              case Failure(e) => r == Failure(e) && State() == old(State())
    {
      r := Send(Post, apiPath, transport);
    }

    method DoRequestPatch(apiPath: string, transport: Transport) returns (r: Result<Pipeline, Failure>)
      modifies this
      ensures match Perform(old(State()), join, Patch, apiPath, transport)
              case Success(c) => r == Success(this) && State() == c
              case Failure(e) => r == Failure(e) && State() == old(State())
    {
      r := Send(Patch, apiPath, transport);
    }

    method DoRequestDelete(apiPath: string, transport: Transport) returns (r: Result<Pipeline, Failure>)
      modifies this
      ensures match Perform(old(State()), join, Delete, apiPath, transport)
              case Success(c) => r == Success(this) && State() == c
              case Failure(e) => r == Failure(e) && State() == old(State())
    {
      r := Send(Delete, apiPath, transport);
    }

    method DoValidateSchema(schema: Value, conforms: (Option<Value>, Value) -> bool)
      returns (r: Result<Pipeline, Failure>)
      ensures r.Success? <==> conforms(responseData, schema)
      ensures r.Success? ==> r.value == this
      ensures r.Failure? ==> r.error == SchemaValidationError
    {
      if conforms(responseData, schema) {
        r := Success(this);
      } else {
        r := Failure(SchemaValidationError);
      }
    }

    method DoValidateResponseCode(expectedStatusCode: int) returns (r: Result<Pipeline, Failure>)
      ensures r.Success? <==> statusCode == Some(expectedStatusCode)
      ensures r.Success? ==> r.value == this
      ensures r.Failure? ==> r.error == AssertionError(expectedStatusCode, statusCode)
    {
      if statusCode == Some(expectedStatusCode) {
        r := Success(this);
      } else {
        r := Failure(AssertionError(expectedStatusCode, statusCode));
      }
    }

    method DoPipelineInit(host: string, protocol: string := "http", port: string := "80",
                          urlPrefix: string := "/") returns (self: Pipeline)
      modifies this
      ensures self == this
      ensures State() == PipelineInit(old(State()), join, host, protocol, port, urlPrefix)
      ensures old(InSync()) ==> InSync()
    {
      this.protocol := protocol;
      this.host := Some(host);
      this.port := Some(port);
      this.urlPrefix := Some(urlPrefix);
      baseHttpPath := Some(join(Origin(protocol, host, port), urlPrefix));
      self := this;
    }
  }
}
