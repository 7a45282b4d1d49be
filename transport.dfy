/**
 * The upstream academic-records API as the gateway sees it: the request it
 * builds and the reply it gets back. An HTTP client call either gets no
 * response at all or a response with a status and a JSON body; the client
 * rejects every status outside 200-299.
 */
module Transport {
  import opened Wrappers
  import opened Strings
  import opened Js

  /** The fixed upstream base address (src/lib/server-api.ts:4, src/app/actions.ts:6). */
  const ApiUrl := "https://api.sofia-sahara.com/api/v1"

  const JsonMediaType := "application/json"

  datatype Method = GET | POST | PUT

  /** `Authorization` is absent (`None`) only on the login request. */
  datatype Headers = Headers(contentType: string, accept: string, authorization: Option<string>)

  datatype Request = Request(verb: Method, url: string, headers: Headers, body: Json)

  datatype Reply = NoResponse | Response(status: int, body: Json)

  /** The HTTP client resolves (does not throw) exactly for a 2xx status. */
  predicate Accepted(reply: Reply)
  {
    reply.Response? && 200 <= reply.status < 300
  }

  /** `token ? \`Bearer ${token}\` : ''` */
  function BearerValue(token: Option<string>): (v: string)
    ensures v == "" <==> token.None? || token.value == ""
    ensures v != "" ==> StartsWith(v, "Bearer ") && v[7..] == token.value
  {
    if token.Some? && token.value != "" then "Bearer " + token.value else ""
  }

  /** The JSON headers every data call sends, with the bearer value or the empty string. */
  function AuthHeaders(token: Option<string>): (h: Headers)
    ensures h.contentType == JsonMediaType && h.accept == JsonMediaType
    ensures h.authorization.Some?
    ensures token.None? || token.value == "" ==> h.authorization == Some("")
    ensures token.Some? && token.value != "" ==> h.authorization == Some("Bearer " + token.value)
  {
    Headers(JsonMediaType, JsonMediaType, Some(BearerValue(token)))
  }

  /**
   * `error.response?.data?.message || fallback`: the body's message when it
   * is truthy, the call's fallback text otherwise.
   */
  function FailureMessage(reply: Reply, fallback: string): (m: Json)
    requires fallback != ""
    ensures Truthy(m)
    ensures reply.Response? && Truthy(Field(reply.body, "message")) ==> m == Field(reply.body, "message")
    ensures reply.NoResponse? || !Truthy(Field(reply.body, "message")) ==> m == Str(fallback)
  {
    match reply
    case NoResponse => Str(fallback)
    case Response(_, body) => Or(Field(body, "message"), Str(fallback))
  }
}
