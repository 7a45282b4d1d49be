/**
 * `serverApi` (src/lib/server-api.ts): builds one request to the fixed base
 * address with the session's bearer value, and passes the reply's body
 * through untouched; a failure is rethrown, not turned into an envelope.
 */
module ServerApi {
  import opened Wrappers
  import opened Strings
  import opened Js
  import opened Transport

  /** What a caller of `serverApi` sees: the body as returned, or the rethrown failure. */
  datatype Outcome = Returned(data: Json) | Rethrown(error: Reply)

  /** The request for `url` with the given verb (GET when omitted) and body. */
  function BuildRequest(token: Option<string>, url: string, verb: Option<Method>, data: Json): (q: Request)
    requires verb != Some(PUT)
    ensures q.url == ApiUrl + url && StartsWith(q.url, ApiUrl) && q.url[|ApiUrl|..] == url
    ensures q.verb == if verb.Some? then verb.value else GET
    ensures q.headers.authorization == Some(if token.Some? && token.value != "" then "Bearer " + token.value else "")
    ensures q.body == data
  {
    Request(if verb.None? then GET else verb.value, ApiUrl + url, AuthHeaders(token), data)
  }

  /** The result of `serverApi(url, verb, data)` once the upstream has replied with `reply`. */
  function Call(token: Option<string>, url: string, verb: Option<Method>, data: Json, reply: Reply): (r: (Request, Outcome))
    requires verb != Some(PUT)
    ensures r.0 == BuildRequest(token, url, verb, data)
    ensures r.1.Returned? <==> Accepted(reply)
    ensures r.1.Returned? ==> r.1.data == reply.body
    ensures r.1.Rethrown? ==> r.1.error == reply
  {
    var request := BuildRequest(token, url, verb, data);
    if Accepted(reply) then (request, Returned(reply.body)) else (request, Rethrown(reply))
  }

  /** A list body `{data: [...]}` comes back whole: no envelope is unwrapped. */
  lemma NoUnwrap(token: Option<string>, url: string, items: seq<Json>)
    ensures Call(token, url, None, Undefined, Response(200, Obj(map["data" := Arr(items)]))).1
         == Returned(Obj(map["data" := Arr(items)]))
  {
  }

  /** Without a session the request still goes out, with an empty authorization value. */
  lemma NoSessionSendsEmptyAuthorization(url: string)
    ensures BuildRequest(None, url, None, Undefined).headers.authorization == Some("")
    ensures BuildRequest(None, url, None, Undefined).verb == GET
  {
  }
}
