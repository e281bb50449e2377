/**
  `handleRequest`: builds a GET request to the upstream API that carries the
  user's access token as a bearer credential (section 2.1 of RFC 6750), and
  maps what comes back to the second argument of the caller's callback:
  `null` on a transport error, the parsed body on status 200, and the bare
  status code otherwise. The network and `JSON.parse` are parameters.
 */
module BearerClient {
  import opened JsValue

  /** `appConfig.requestUrl`, the upstream API's base URL. */
  const RequestUrl: string := "https://api.clever.com"
  const BearerPrefix: string := "Bearer "
  const JsonContentType: string := "application/json"
  const UserAgent: string := "My App"

  /** The caller's `options`: a method and a path relative to RequestUrl. */
  datatype Options = Options(verb: string, uri: string)

  /** The request handed to the HTTP library. */
  datatype Request = Request(uri: string, verb: string, headers: map<string, string>)

  /** What the HTTP library reports: an error, or a status code and body. */
  datatype Transport = Failed | Received(statusCode: int, body: string)

  /** The three outcomes the callback can be handed. */
  datatype Outcome = NoData | Parsed(json: Value) | Status(code: int)

  /** One invocation of the caller's callback. */
  datatype Call = Call(user: Value, data: Value)

  /** What one `handleRequest` does: the request it sends and, in order,
      the callback invocations it makes. */
  datatype Exchange = Exchange(sent: Request, calls: seq<Call>)

  datatype Option<T> = None | Some(value: T)

  /** The request for `user` and `options`. Reading `accessToken` of a
      nullish user would throw. */
  function BuildRequest(user: Value, options: Options): (r: Request)
    requires !IsNullish(user)
    ensures r.verb == "GET"
    ensures r.headers.Keys == {"Authorization", "Content-Type", "User-Agent"}
    ensures r.headers["Content-Type"] == JsonContentType
    ensures r.headers["User-Agent"] == UserAgent
  {
    Request(RequestUrl + options.uri, "GET",
            map["Authorization" := BearerPrefix + ToStr(Prop(user, "accessToken")),
                "Content-Type" := JsonContentType,
                "User-Agent" := UserAgent])
  }

  /** The credential of an `Authorization` header of the bearer scheme. */
  function BearerCredential(header: string): (t: Option<string>)
    ensures t.Some? ==> header == BearerPrefix + t.value
  {
    if |BearerPrefix| <= |header| && header[..|BearerPrefix|] == BearerPrefix
    then Some(header[|BearerPrefix|..])
    else None
  }

  /** The resource path of a URI under RequestUrl. */
  function ResourcePath(uri: string): (p: Option<string>)
    ensures p.Some? ==> uri == RequestUrl + p.value
  {
    if |RequestUrl| <= |uri| && uri[..|RequestUrl|] == RequestUrl
    then Some(uri[|RequestUrl|..])
    else None
  }

  /** The request presents the user's token, converted to a string, as its
      bearer credential, and addresses the caller's path under RequestUrl. */
  lemma BuildRequestCarriesTokenAndPath(user: Value, options: Options)
    requires !IsNullish(user)
    ensures BearerCredential(BuildRequest(user, options).headers["Authorization"])
              == Some(ToStr(Prop(user, "accessToken")))
    ensures ResourcePath(BuildRequest(user, options).uri) == Some(options.uri)
  {
  }

  /** The caller's method is ignored: the request is the same whatever
      `options.method` (the field `verb` here) says. */
  lemma BuildRequestIgnoresMethod(user: Value, path: string, m1: string, m2: string)
    requires !IsNullish(user)
    ensures BuildRequest(user, Options(m1, path)) == BuildRequest(user, Options(m2, path))
  {
  }

  /** The response classification; total and exclusive. */
  function Classify(response: Transport, parse: string -> Value): (o: Outcome)
    ensures o.NoData? <==> response.Failed?
    ensures o.Parsed? <==> response.Received? && response.statusCode == 200
    ensures o.Status? <==> response.Received? && response.statusCode != 200
    ensures o.Parsed? ==> o.json == parse(response.body)
    ensures o.Status? ==> o.code == response.statusCode
  {
    if response.Failed? then NoData
    else if response.statusCode == 200 then Parsed(parse(response.body))
    else Status(response.statusCode)
  }

  /** The untyped value the callback receives for an outcome. */
  function Delivered(o: Outcome): Value {
    match o
    case NoData => Null
    case Parsed(json) => json
    case Status(code) => Num(code)
  }

  /** `handleRequest(user, options, callback)` when the HTTP library reports
      `response` for the request sent: the callback fires exactly once, with
      the very user it was given. */
  function HandleRequest(user: Value, options: Options, response: Transport,
                         parse: string -> Value): (e: Exchange)
    requires !IsNullish(user)
    ensures e.sent == BuildRequest(user, options)
    ensures |e.calls| == 1 && e.calls[0].user == user
    ensures response.Failed? ==> e.calls[0].data == Null
    ensures response.Received? && response.statusCode == 200 ==>
              e.calls[0].data == parse(response.body)
    ensures response.Received? && response.statusCode != 200 ==>
              e.calls[0].data == Num(response.statusCode)
  {
    Exchange(BuildRequest(user, options), [Call(user, Delivered(Classify(response, parse)))])
  }

  /** The untyped channel is ambiguous: a 200 response whose body parses to
      the number 404 reaches the callback exactly as a 404 status does, and
      one whose body parses to `null` exactly as a transport error does. */
  lemma DeliveredIsAmbiguous(user: Value, options: Options, body: string, other: string,
                             parse: string -> Value)
    requires !IsNullish(user)
    ensures parse(body) == Num(404) ==>
              HandleRequest(user, options, Received(200, body), parse).calls
              == HandleRequest(user, options, Received(404, other), parse).calls
    ensures parse(body) == Null ==>
              HandleRequest(user, options, Received(200, body), parse).calls
              == HandleRequest(user, options, Failed, parse).calls
  {
  }

  /** Only a 200 response can deliver an object to the callback. */
  lemma OnlySuccessDeliversObject(user: Value, options: Options, response: Transport,
                                  parse: string -> Value)
    requires !IsNullish(user)
    requires HandleRequest(user, options, response, parse).calls[0].data.Obj?
    ensures response.Received? && response.statusCode == 200
  {
  }
}
