/** The shape of what the pipeline hands to, and receives from, the HTTP
    transport (`requests.get/post/patch/delete`), which itself is not modelled. */
module Http {
  import opened Wrappers
  import opened Json

  datatype Verb = Get | Post | Patch | Delete

  /** One outgoing call: the verb, the resolved URL, the `params=` and `data=`
      arguments (`None` when the call does not pass them), headers and cookies. */
  datatype HttpRequest = HttpRequest(
    verb: Verb,
    url: string,
    params: Option<string>,
    data: Option<string>,
    headers: Option<Dict>,
    cookies: Option<Dict>)

  /** What the transport returns: the status code, the body text, and the
      outcome of `response.json()`; `None` stands for a `JSONDecodeError`. */
  datatype Response = Response(status: int, text: string, json: Option<Value>)

  /** The network: either a response or a connection error that propagates. */
  type Transport = HttpRequest -> Result<Response, string>

  /** The call each verb method makes with the serialized body `payload`:
      GET passes it as the query string, POST and PATCH as the body, and
      DELETE passes neither; all four pass the URL, headers and cookies as given. */
  function BuildRequest(verb: Verb, url: string, payload: Option<string>,
                        headers: Option<Dict>, cookies: Option<Dict>): (r: HttpRequest)
    ensures r.verb == verb && r.url == url
    ensures r.headers == headers && r.cookies == cookies
    ensures r.params.Some? ==> verb == Get
    ensures r.data.Some? ==> verb in {Post, Patch}
    ensures verb == Get ==> r.params == payload && r.data == None
    ensures verb in {Post, Patch} ==> r.data == payload && r.params == None
    ensures verb == Delete ==> r.params == None && r.data == None
  {
    match verb
    case Get => HttpRequest(Get, url, payload, None, headers, cookies)
    case Post => HttpRequest(Post, url, None, payload, headers, cookies)
    case Patch => HttpRequest(Patch, url, None, payload, headers, cookies)
    case Delete => HttpRequest(Delete, url, None, None, headers, cookies)
  }
}
