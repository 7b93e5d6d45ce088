/** HTTP messages as the proxy sees them: upstream responses, outgoing requests, action results. */
module Http {
  import opened Wrappers
  import opened Model

  /** `HttpResponseMessage.IsSuccessStatusCode`. */
  predicate IsSuccessStatusCode(status: int) {
    200 <= status <= 299
  }

  const Unauthorized: int := 401

  /** An upstream response: its status code and its body read as a string. */
  datatype HttpResponse = HttpResponse(status: int, body: string)

  /** A POST that was sent: target, body and media type. */
  datatype HttpPost = HttpPost(url: string, body: string, contentType: string)

  /** A GET that was sent: target and the rendered `Authorization` header. */
  datatype HttpGet = HttpGet(url: string, authorization: Option<string>)

  /** `AuthenticationHeaderValue(scheme, parameter)`. */
  datatype AuthenticationHeader = AuthenticationHeader(scheme: string, parameter: string)

  /** The header as it goes on the wire: scheme, one space, parameter; the scheme alone when the parameter is empty. */
  function HeaderValue(h: AuthenticationHeader): (v: string)
    ensures h.parameter == "" ==> v == h.scheme
    ensures h.parameter != "" ==> |v| == |h.scheme| + 1 + |h.parameter|
    ensures h.parameter != "" ==> v[..|h.scheme|] == h.scheme && v[|h.scheme|] == ' ' && v[|h.scheme| + 1..] == h.parameter
  {
    if h.parameter == "" then h.scheme else h.scheme + " " + h.parameter
  }

  /** `HttpRequestMessage`: a request under construction; its headers are set after it is created. */
  class HttpRequestMessage {
    const url: string
    var authorization: Option<AuthenticationHeader>

    constructor (url: string)
      ensures this.url == url && authorization == None
    {
      this.url := url;
      authorization := None;
    }

    /** The request as it is sent. */
    function AsSent(): (g: HttpGet)
      reads this
      ensures g.url == url
      ensures g.authorization.Some? <==> authorization.Some?
    {
      HttpGet(url, if authorization.Some? then Some(HeaderValue(authorization.value)) else None)
    }
  }

  /** The `IActionResult`s the controllers return. */
  datatype ActionResult =
    | BadRequest(error: string)                  // 400 with body {"error": ...}
    | StatusCode(status: int, error: string)     // the given status with body {"error": ...}
    | Ok(token: TokenResult)                     // 200 with the serialized TokenResult
    | Content(body: string, contentType: string) // Response.StatusCode with the given body

  const JsonContentType: string := "application/json"
}
