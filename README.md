# papiline pipeline context, modelled in Dafny

papiline is a fluent DSL for writing HTTP API tests. A test builds one
`Pipeline` object and chains `do_*` calls on it. Each call overwrites some
fields of that one mutable record and returns the object itself. The calls
prepare the JSON body, set headers and cookies, issue GET/POST/PATCH/DELETE,
and check the status code or a JSON schema.

This project models that object (`papiline/papiline_core.py`):

- `wrappers.dfy` (`Wrappers`): `Option` for Python's `None`, and `Result` for a call that returns or raises.
- `json.dfy` (`Json`): JSON values (with Python's int and float kept apart), string-keyed dicts, and `dict.update` as `Update`.
- `text.dfy` (`Text`): `str.replace("\n", "")` as `StripNewlines`.
- `http.dfy` (`Http`): the verbs, the outgoing call record, the response record, and `BuildRequest`. `BuildRequest` says which argument carries the body for each verb.
- `papiline.dfy` (`Papiline`): the field record `Context` and one pure transition per `do_*` operation. It also holds the class `Pipeline`, which has the source's fields and one method per `do_*` method; the ones that assign fields are `modifies this`, and the two validators have no `modifies` clause. Each method's postcondition ties the new field values to the transition applied to the old ones.
- `chain.dfy` (`Chaining`): chains of calls as tests write them, and lemmas about single calls, pairs of calls and whole chains. A call that raises ends the chain.

Foreign code is passed in rather than modelled:

- `json.dumps` is the function `serialize` that the pipeline is built with.
- `urllib.parse.urljoin` is the function `join`. The model encodes one rule of CPython's `urljoin` implementation, its opening `if not base: return url`: if the base is `None` (before `do_pipeline_init`), the result is the path itself.
- The network is a `Transport` function. It takes the outgoing request record and returns either a `Response` or a connection error. The response has a status, a body text, and the result of `response.json()`, where `None` means a `JSONDecodeError`.
- `jsonschema.validate` is a `conforms` predicate on the parsed body and the schema.

The model follows what the code does. Some of that behaviour is easy to miss:

- No request clears the response fields first. When the new body is not valid JSON, the previous `response_data` stays (`StaleParsedBody`).
- There is no `url_params` field. GET sends `request_data_raw` as the query string. POST and PATCH send it as the body without a query string. DELETE sends neither.
- This file has no lazy mode and no task queue.
- `request_data_raw` starts as `None`, so it matches `serialize(request_data)` only after the first body write. From then on the model keeps it in sync (`RunKeepsSynced`, `RunSyncsAfterData`). This holds only because the model gives each object its own maps by value; Python's aliasing can break it, as "## Left out" describes.
- `headers` and `cookies` start as empty dicts, not `None`.
- The base path can be changed by calling `do_pipeline_init` again (`InitOverrides`). It is not fixed at construction.

## Model

| member | source | states |
|---|---|---|
| Json.Update | papiline/papiline_core.py:56 | `dict.update` keeps every old key and adds every patch key. A shared key takes the patch's value, and every other old key keeps its old value. |
| Json.UpdateUpdate | papiline/papiline_core.py:56 | Two updates in a row equal one update with the two patches merged. |
| Text.StripNewlines | papiline/papiline_core.py:75 | The stripped text has no line feed. Its length is the original length minus the number of line feeds. Every other character occurs as often as before. The text is unchanged exactly when it had no line feed. |
| Text.StripNewlinesConcat | papiline/papiline_core.py:75 | Stripping distributes over concatenation, so the kept characters stay in their original order. |
| Text.StripNewlinesIdempotent | papiline/papiline_core.py:75 | Stripping twice gives the same result as stripping once. |
| Http.BuildRequest | papiline/papiline_core.py:80-118 | GET sends the payload as `params` and no `data`. POST and PATCH send it as `data` and no `params`. DELETE sends neither. All four send the URL, headers and cookies unchanged. |
| Papiline.PrepareDataJson | papiline/papiline_core.py:50-53 | The body becomes the given dict and the raw body becomes its serialization. Headers, cookies, response fields and target fields are unchanged. |
| Papiline.PrepareUpdateDataJson | papiline/papiline_core.py:55-58 | The body's keys are the old keys plus the patch keys. Patch keys take the patch's values and the other keys keep their old values. The raw body is the serialization of the merged body, and nothing else changes. |
| Papiline.PrepareRequest | papiline/papiline_core.py:62-66 | Headers and cookies become exactly the given values, `None` included. The body, response fields and target fields are unchanged. |
| Papiline.Url | papiline/papiline_core.py:81 | The URL is `join(base_http_path, api_path)`; before `do_pipeline_init` the base is `None` and the URL is the path itself, as CPython's `urljoin` returns its second argument for an empty base. |
| Papiline.Origin | papiline/papiline_core.py:139 | The f-string `f"{protocol}://{host}:{port}"`: the protocol, then `://`, then the host, then `:`, then the port, and nothing else. |
| Papiline.Outgoing | papiline/papiline_core.py:79-118 | The call goes to `urljoin(base_http_path, api_path)` with the current headers and cookies. `request_data_raw` is the query string for GET, the body for POST and PATCH, and is absent for DELETE. |
| Papiline.Finalize | papiline/papiline_core.py:70-77 | The response is stored. The parsed body replaces `response_data` only when it parsed, and otherwise the old value stays. The raw text stored is exactly the response text with every line feed removed (`StripNewlines`), so it has no line feed and its length is reduced by their count. The status code is stored. The request side and the target are unchanged. |
| Papiline.Perform | papiline/papiline_core.py:79-120 | A verb call succeeds exactly when the transport returns a response for the outgoing call, and the new state is that response finalized. A connection error propagates. |
| Papiline.ValidateSchema | papiline/papiline_core.py:124-126 | The check passes exactly when the validator accepts the parsed body. Otherwise it raises the validation error. |
| Papiline.ValidateResponseCode | papiline/papiline_core.py:128-130 | The check passes exactly when the stored status equals the expected one. Otherwise it raises an assertion error. |
| Papiline.PipelineInit | papiline/papiline_core.py:134-140 | Host, protocol, port and prefix are stored. The base path is the prefix joined onto `protocol://host:port`. The request and response fields are unchanged. |
| Papiline.Pipeline.constructor | papiline/papiline_core.py:20-34 | A new object holds the class defaults, in the model's value semantics (see "## Left out"): empty body, no raw body, empty headers and cookies, no response, protocol `"http"`, no target. |
| Papiline.Pipeline.DoPrepareDataJson | papiline/papiline_core.py:50-53 | Returns the object itself. The fields change as `PrepareDataJson` says, so the raw body is in sync. |
| Papiline.Pipeline.DoPrepareUpdateDataJson | papiline/papiline_core.py:55-58 | Returns the object itself. The fields change as `PrepareUpdateDataJson` says, so the raw body is in sync. |
| Papiline.Pipeline.DoPrepareRequest | papiline/papiline_core.py:62-66 | Returns the object itself. Both arguments default to `None`, and the fields change as `PrepareRequest` says. |
| Papiline.Pipeline.FinalizeRequest | papiline/papiline_core.py:70-77 | The fields change as `Finalize` says, applied to the stored response. |
| Papiline.Pipeline.Send | papiline/papiline_core.py:79-120 | On a response, returns the object and the fields become `Perform`'s new state. On a connection error, returns that error and changes no field. |
| Papiline.Pipeline.DoRequestGet | papiline/papiline_core.py:79-88 | Same as `Send` with GET. |
| Papiline.Pipeline.DoRequestPost | papiline/papiline_core.py:90-99 | Same as `Send` with POST. |
| Papiline.Pipeline.DoRequestPatch | papiline/papiline_core.py:101-110 | Same as `Send` with PATCH. |
| Papiline.Pipeline.DoRequestDelete | papiline/papiline_core.py:112-120 | Same as `Send` with DELETE. |
| Papiline.Pipeline.DoValidateSchema | papiline/papiline_core.py:124-126 | Returns the object exactly when the validator accepts `response_data`. Otherwise it raises the validation error. No field changes. |
| Papiline.Pipeline.DoValidateResponseCode | papiline/papiline_core.py:128-130 | Returns the object exactly when `status_code` equals the expected code. Otherwise it raises an assertion error. No field changes. |
| Papiline.Pipeline.DoPipelineInit | papiline/papiline_core.py:134-140 | Defaults are protocol `"http"`, port `"80"` and prefix `"/"`. Returns the object itself, and the fields change as `PipelineInit` says. |
| Chaining.Apply | papiline/papiline_core.py:53-140 | One chained call on the current state. Only requests and the two checks can raise; the checks leave the state as it was; only requests touch the response fields; only body writes touch the body. |
| Chaining.Run | papiline/papiline_core.py:53-140 | A chain, where each call returns the object itself and the first exception ends it with the state the raising call was given. A chain of body writes, header preparation and init never raises in the model, where `serialize` and `join` are total. |
| Chaining.TestPipeline | tests/conftest.py:24 | The tests ask for a fixture named `pipeline`, which the source files do not define; the only fixture there is `chain`, a `Chain("localhost", port="8081")`, and `Chain` is not part of this model. The model assumes `pipeline` is a `Pipeline` initialised as `do_pipeline_init("localhost", port="8081")` would: host `localhost`, protocol `http`, port `8081`, prefix `/`, base path `join("http://localhost:8081", "/")`, and otherwise a new object. |
| Chaining.PrepareThenUpdate | papiline/papiline_core.py:50-58 | Setting body `d1` and then merging `d2` gives the merged dict and its serialization. |
| Chaining.UpdateTwice | papiline/papiline_core.py:55-58 | Two merges in a row equal one merge with the patches merged. |
| Chaining.PrepareDataForgets | papiline/papiline_core.py:50-58 | Setting the body discards any earlier merge. |
| Chaining.PrepareRequestOverrides | papiline/papiline_core.py:62-66 | Headers and cookies are replaced, never merged, so only the last `do_prepare_request` counts. |
| Chaining.LastResponseWins | papiline/papiline_core.py:70-76 | After a second response whose body parses, the first response leaves no trace. |
| Chaining.StaleParsedBody | papiline/papiline_core.py:71-76 | After a second response whose body does not parse, the first response's parsed body stays. The raw text and status come from the second response. |
| Chaining.StatusCheckAfterRequest | papiline/papiline_core.py:76 | After a request, the status check passes exactly for the status the transport returned. |
| Chaining.InitOverrides | papiline/papiline_core.py:134-140 | A second `do_pipeline_init` sets the target from its own arguments alone. |
| Chaining.RunAppend | papiline/papiline_core.py:53-140 | Running chain `a + b` means running `a` and then `b` on the resulting state. If `a` raised, the chain ends there. |
| Chaining.RunKeepsSynced | papiline/papiline_core.py:49-58 | Once the raw body is in sync with the body, every chain of calls keeps it in sync, under the model's value semantics for dicts. |
| Chaining.RunSyncsAfterData | papiline/papiline_core.py:49-58 | A chain that runs to the end and contains a body write ends with the raw body in sync, from any starting state. |
| Chaining.RunWithoutRequest | papiline/papiline_core.py:69-120 | A chain with no request leaves every response field as it was. |
| Chaining.RunWithoutData | papiline/papiline_core.py:49-58 | A chain with no body write leaves the body and the raw body as they were. |
| Chaining.GetUsersThenCheck200 | tests/test_papiline.py:5-11 | After init on `localhost:8081`, when the transport answers 200 to exactly the GET of `join(join("http://localhost:8081", "/"), "/users")` with no query string, no body and the default empty headers and cookies, the check for 200 passes and the status and parsed body are stored. |
| Chaining.GetUsersThenCheckMismatch | papiline/papiline_core.py:128-130 | After init on `localhost:8081`, when the answer to exactly that GET of `/users` has a status other than 200, whatever its body and whether or not it parsed, the check for 200 raises an assertion error and the new status stays stored. |
| Chaining.HeadersGetCheckSchema | tests/test_papiline.py:14-34 | After init on `localhost:8081`, headers are set without cookies, so the GET goes to `join(join("http://localhost:8081", "/"), "/users")` with those headers and `None` cookies. When the transport answers 200 with a parsed body to exactly that GET, and the validator accepts that body against the schema, the status check and the schema check both pass. |

## Left out

- The HTTP transport itself (`requests.get/post/patch/delete`) and the `**kwargs` the verb methods pass through to it. This is network I/O. It is replaced by the `Transport` function, which sees the URL, query string, body, headers and cookies.
- The wire format of `json.dumps` and the `response.json()` parser. These are foreign, so `serialize` is uninterpreted and the parse result is part of the response record. `json.dumps` may raise on a value it cannot serialize, after `request_data` has already been assigned. The model treats serialization as total.
- The `urljoin` algorithm (section 5.2 of RFC 3986). It is foreign, so `join` is uninterpreted. Only the rule that a `None` base returns the path is encoded.
- `jsonschema.validate`. It is foreign, so it is the `conforms` predicate.
- Logging and `__str__`, which are diagnostics only. The `faker_instance` field, which no operation uses.
- Python aliasing. The class-level mutable dict defaults are shared by every `Pipeline` instance. `do_prepare_data_json` stores the caller's dict itself, so a later `do_prepare_update_data_json` also changes the caller's dict. The model gives each object its own value-semantics maps. Under Python's aliasing the sync invariant can fail. If the caller changes its dict after `do_prepare_data_json(d)`, `request_data` changes but `request_data_raw` does not. Two fresh pipelines that both call `do_prepare_update_data_json` write into the one shared class-level dict, so the first one's raw body goes stale. `RunKeepsSynced` and `RunSyncsAfterData` hold only for the model's value semantics.
- JSON numbers beyond Python's int and finite float. `json.dumps` writes, and `json.loads` reads, `NaN`, `Infinity` and `-Infinity`; `Json.Value` has no values for them.
- Float precision. `Float` holds an exact real, so it can hold values such as 1/3 that no IEEE double can; rounding is not modelled.
- Failures of `urljoin`. `join` is total, but CPython's `urljoin` raises `ValueError` ("Invalid IPv6 URL") when the base or the path has a network location with an unmatched bracket, for example a host `"[::1"` or a path `"//[x"`. In `do_pipeline_init` it raises after protocol, host, port and prefix are already assigned, leaving the old `base_http_path`; in a verb method it raises before the transport is called. The model's `PipelineInit` always sets all five fields and the verb methods always call the transport, so `NeverRaises` and `Run`'s no-raise clause hold only because `join` is total. The same goes for `serialize`: `json.dumps` raises `TypeError` on a value it cannot serialize.
- Dict insertion order. Python dicts keep insertion order and `json.dumps` follows it, so the same entries in a different order serialize to a different string. `Dict` is an unordered map, so `serialize` sees only the entries and the model's raw body depends on them alone.
- Papiline.ValidateResponseCode: the model's `AssertionError(expected, actual)` carries the expected and the stored code. The source's bare `assert` raises `AssertionError()` with no arguments; the payload is the model's addition.
- Papiline.Pipeline.DoValidateResponseCode: under `python -O` the `assert` is removed and the check never fails. The model keeps the assertion.
- Papiline.Finalize: a body that parses to JSON `null` sets Python's `response_data` to `None`. The model stores `Some(Null)` instead.
- Papiline.Finalize: with `requests` 2.20 and `simplejson` installed, a parse failure raises `simplejson`'s error, which the `except json.JSONDecodeError` does not catch. The model assumes the standard `json` module, so a parse failure never raises.
- Python's dynamic typing: the host, port and prefix are modelled as strings, while the f-string would format any value.
- `setup.py` (packaging and version-file reading) and the test server fixture in `tests/conftest.py`. Both are I/O glue. The `Chain` class that `conftest.py` builds is not part of this model.
