/**
  The completion callback given to the OAuth 2.0 instant-login strategy.
  Once the token exchange has succeeded it wraps the access token in a
  transient user, fetches `/me` with the bearer client, and hands the
  session framework either the profile (`data.data`) with `accessToken`
  set to the token, or `null` when no usable profile came back.
 */
module InstantLogin {
  import opened JsValue
  import opened BearerClient
  import opened SessionStore
  import opened AuthGate

  /** The options of the profile fetch. */
  const MeOptions: Options := Options("GET", "/me")

  /** `done(err, user)`: the strategy's completion signal. */
  datatype Done = Done(err: Value, user: Value)

  /** What one run of the verify callback does: the request it sends and
      the completion it signals. */
  datatype Completion = Completion(sent: Request, done: Done)

  /** `{ accessToken: accessToken }` */
  function TokenHolder(accessToken: string): (u: Value)
    ensures Truthy(u) && Prop(u, "accessToken") == Str(accessToken)
  {
    Obj(map["accessToken" := Str(accessToken)])
  }

  /** Whether the fetched `data` holds a usable profile: `data && data.data`. */
  predicate HasProfile(data: Value) {
    Truthy(data) && Truthy(Prop(data, "data"))
  }

  /** The record built from the callback's `(user, data)`: the profile with
      the token holder's `accessToken` written into it (sloppy-mode write),
      or `null`. The holder is read only when a profile is there. */
  function MergeProfile(user: Value, data: Value): (fullUser: Value)
    requires HasProfile(data) ==> !IsNullish(user)
    ensures !HasProfile(data) <==> fullUser == Null
    ensures HasProfile(data) ==> Truthy(fullUser)
    ensures HasProfile(data) && Prop(data, "data").Obj? ==>
              fullUser.Obj?
              && fullUser.props.Keys == Prop(data, "data").props.Keys + {"accessToken"}
              && Prop(fullUser, "accessToken") == Prop(user, "accessToken")
    ensures HasProfile(data) && !Prop(data, "data").Obj? ==> fullUser == Prop(data, "data")
  {
    if HasProfile(data) then SetProp(Prop(data, "data"), "accessToken", Prop(user, "accessToken"))
    else Null
  }

  /** The merge overwrites any `accessToken` the profile already had and
      leaves every other profile field as it was. */
  lemma MergeChangesOnlyToken(user: Value, data: Value, key: string)
    requires HasProfile(data) && !IsNullish(user) && Prop(data, "data").Obj?
    requires key != "accessToken"
    ensures Prop(MergeProfile(user, data), key) == Prop(Prop(data, "data"), key)
  {
  }

  /** The verify callback for `accessToken` (the refresh token and the
      strategy's own profile argument are unused) when the profile fetch is
      answered with `response`. */
  function Verify(accessToken: string, response: Transport, parse: string -> Value): (c: Completion)
    ensures c.done.err == Null
    ensures c.sent == BuildRequest(TokenHolder(accessToken), MeOptions)
    ensures c.done.user == MergeProfile(TokenHolder(accessToken), Delivered(Classify(response, parse)))
  {
    var exchange := HandleRequest(TokenHolder(accessToken), MeOptions, response, parse);
    var call := exchange.calls[0];
    Completion(exchange.sent, Done(Null, MergeProfile(call.user, call.data)))
  }

  /** The profile fetch is a GET of `/me` under the API base URL that
      presents exactly the access token as its bearer credential. */
  lemma VerifyFetchesMeWithToken(accessToken: string, response: Transport, parse: string -> Value)
    ensures Verify(accessToken, response, parse).sent.verb == "GET"
    ensures ResourcePath(Verify(accessToken, response, parse).sent.uri) == Some("/me")
    ensures BearerCredential(Verify(accessToken, response, parse).sent.headers["Authorization"])
              == Some(accessToken)
  {
  }

  /** The login yields no user exactly when the fetch failed, answered with
      a status other than 200, or returned a body without a truthy `data`. */
  lemma VerifyFailsIffNoProfile(accessToken: string, response: Transport, parse: string -> Value)
    ensures Verify(accessToken, response, parse).done.user == Null <==>
              !(response.Received? && response.statusCode == 200 && HasProfile(parse(response.body)))
  {
  }

  /** When the fetch returns a profile object, the login's user is that
      profile with `accessToken` set to the token exchanged. */
  lemma VerifyBuildsRecord(accessToken: string, body: string, parse: string -> Value,
                           profile: map<string, Value>)
    requires parse(body).Obj? && Prop(parse(body), "data") == Obj(profile)
    ensures Verify(accessToken, Received(200, body), parse).done.user
              == Obj(profile["accessToken" := Str(accessToken)])
  {
  }

  /** End to end: a user who completes the instant login with a profile
      object, and is then serialized into the table, passes the gate on the
      next request exactly when the profile's `id` is truthy. */
  lemma LoginThenGate(users: Slots, accessToken: string, body: string, parse: string -> Value,
                      profile: map<string, Value>)
    requires parse(body).Obj? && Prop(parse(body), "data") == Obj(profile)
    ensures var user := Verify(accessToken, Received(200, body), parse).done.user;
            && Truthy(user)
            && Prop(user, "id") == Prop(Obj(profile), "id")
            && ((RequireToken(Store(users, user), LoggedInSession(Prop(user, "id"))) == Next)
                == Truthy(Prop(Obj(profile), "id")))
  {
  }
}
