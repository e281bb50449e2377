# Clever instant login: session store, gate, bearer client and profile merge

A Dafny model of the logic in `index.js` of a small Express application that
logs a user in through Clever's OAuth 2.0 "instant login", keeps the user
record in an in-process table behind Passport's serialize and deserialize
hooks, lets requests to the profile page through only for a session whose
user is stored, and fetches the profile from the Clever API with the access
token as a bearer credential (section 2.1 of RFC 6750).

Modules:

- `JsValue` (`js_value.dfy`): the JavaScript values the core handles (a
  datatype with `undefined`, `null`, booleans, integer numbers, strings and
  objects), truthiness, own-property reads, sloppy-mode property writes and
  ToString. ToString matters because `users` is an array. `users[user.id]`
  converts the id to a property key, so the table is keyed by the string
  form of the id. Distinct integers are proved to render as distinct
  decimal strings, through a parse-back round trip.
- `SessionStore` (`session_store.dfy`): the `users` table as a class
  `UserStore` with a `map` field. `SerializeUser` is the serialize hook: it
  updates the map in place, has a frame condition, and keeps the invariant
  that every stored user is truthy. `DeserializeUser` is the deserialize
  hook, a function of the table.
- `AuthGate` (`auth_gate.dfy`): `findUser` and the `requireToken` filter as
  functions of the table and the session object.
- `BearerClient` (`bearer_client.dfy`): `handleRequest`. It covers the
  request it builds, the three-way classification of what the HTTP library
  reports, and the single callback invocation.
- `InstantLogin` (`instant_login.dfy`): the strategy's verify callback,
  which fetches `/me` and merges the profile with the access token, plus an
  end-to-end lemma from login through serialization to the gate.

The network answer and `JSON.parse` are parameters. The answer is a
`Transport` value and the parser is a total function `string -> Value`.

The table is keyed by each user's own `id` field (`users[user.id] = user`,
index.js:62), not by an insertion counter.

## Model

| member | source | states |
|---|---|---|
| `SessionStore.UserStore.constructor` | index.js:52 | the table starts empty (and valid) |
| `SessionStore.UserStore.SerializeUser` | index.js:60-64 | hands the session layer exactly `user.id`; the new table is the old one with the slot of that id set to `user`; deserializing the returned id gives back `user`; every other slot reads as before; the invariant that stored users are truthy is kept |
| `SessionStore.UserStore.DeserializeUser` | index.js:67-70 | in a valid table, the record found for `id` is truthy exactly when the slot of `id` is occupied; it is the record stored there, and exactly `undefined` when the slot is empty |
| `SessionStore.LookupNumberAsNumeral` | index.js:68 | `users[n]` for a number `n` reads the same slot as `users` indexed by the decimal string of `n` |
| `SessionStore.Store` | index.js:62 | after `users[user.id] = user` the slots are the old ones plus the slot of the id; looking up the id gives `user`; every other slot is unchanged |
| `SessionStore.StorePreservesTruthy` | index.js:62 | storing a truthy user into a table of truthy users gives a table of truthy users |
| `SessionStore.StoreKeepsOtherNumericIds` | index.js:62 | storing a user whose id is the number `i` leaves the record of every other number `j` unchanged |
| `SessionStore.NumberAndNumeralShareSlot` | index.js:62 | a user with id `"5"` (a string) replaces the user with id `5` (a number), since both select the same array slot |
| `JsValue.IntToStringInjective` | index.js:62 | distinct integer ids render as distinct property keys |
| `JsValue.ParseDigitsOfDigits` | index.js:62 | reading the decimal rendering of a number back gives that number |
| `JsValue.Digits` | index.js:62 | a numeric key is a non-empty string of decimal digits without a leading zero, one digit long exactly for numbers below 10 |
| `JsValue.SetProp` | index.js:39 | assigning a property of an object adds or overwrites that key and keeps every other property; assigning a property of a primitive changes nothing |
| `AuthGate.FindUser` | index.js:55-57 | the lookup under `session.passport.user` gives the record stored in that id's slot, or exactly `undefined` when the slot is empty; in a table of authenticated users it gives a truthy record exactly when the slot is occupied |
| `AuthGate.RequireToken` | index.js:73-84 | the gate either calls `next` or redirects to `/login`, and it calls `next` only for a truthy passport |
| `AuthGate.RequireTokenAdmitsExactly` | index.js:75-82 | for a table of authenticated users, `next` is called exactly when `session.passport` is truthy, `session.passport.user` is truthy and a record is stored for that id; otherwise the request is redirected |
| `AuthGate.FindUserAfterLogin` | index.js:55-63 | `findUser` looks up the very key that the serialize hook handed the session, so it finds the record just stored |
| `AuthGate.LoginPassesGateIffTruthyId` | index.js:60-84 | a user who has just been serialized passes the gate exactly when their id is truthy |
| `AuthGate.ZeroIdAlwaysRedirected` | index.js:75-77 | a user stored under id 0 is found by `findUser`, yet the gate redirects that session to `/login` |
| `AuthGate.NoPassportRedirected` | index.js:75 | a session with no `passport` is always redirected to `/login` |
| `BearerClient.BuildRequest` | index.js:92-99 | the request is always a GET; it has exactly the headers `Authorization`, `Content-Type: application/json` and `User-Agent: My App` |
| `BearerClient.BuildRequestCarriesTokenAndPath` | index.js:92-97 | the bearer credential of the `Authorization` header is the user's `accessToken` as a string; the URI is the caller's path under the API base URL `https://api.clever.com` |
| `BearerClient.BuildRequestIgnoresMethod` | index.js:98 | the request does not depend on `options.method` |
| `BearerClient.Classify` | index.js:101-111 | total and exclusive: a transport error gives no data, status 200 gives the parsed body, and any other status gives that status code |
| `BearerClient.HandleRequest` | index.js:91-112 | sends the request for `user` and `options`; the callback fires exactly once, with the same `user`; its data is `null` on a transport error, the parsed body on 200, and the numeric status otherwise |
| `BearerClient.DeliveredIsAmbiguous` | index.js:102-110 | the callback cannot tell a 200 body that parses to 404 from a 404 status, or a 200 body that parses to `null` from a transport error |
| `BearerClient.OnlySuccessDeliversObject` | index.js:106-110 | if the callback receives an object, the response was a 200 |
| `InstantLogin.TokenHolder` | index.js:31 | the transient user is an object whose `accessToken` is the exchanged token |
| `InstantLogin.MergeProfile` | index.js:35-42 | the result is `null` exactly when `data && data.data` is falsy. Otherwise it is truthy. For an object profile it has the profile's keys plus `accessToken`, with `accessToken` taken from the token holder. A truthy primitive profile is returned unchanged. |
| `InstantLogin.MergeChangesOnlyToken` | index.js:38-39 | every profile field other than `accessToken` keeps its value |
| `InstantLogin.Verify` | index.js:30-44 | the callback signals `done` with a `null` error, after sending the request for the token holder and the `/me` options; the user it signals is the merge of the token holder with the value the fetch delivered to its callback |
| `InstantLogin.VerifyFetchesMeWithToken` | index.js:31-34 | the profile fetch is a GET of `/me` under the API base URL whose bearer credential is exactly the access token |
| `InstantLogin.VerifyFailsIffNoProfile` | index.js:35-43 | the login yields `null` exactly when the fetch failed, returned a status other than 200, or returned a body without a truthy `data` |
| `InstantLogin.VerifyBuildsRecord` | index.js:37-41 | for a 200 body whose `data` is an object, the user is that object with `accessToken` set to the token |
| `InstantLogin.LoginThenGate` | index.js:35-84 | after a login with a profile object, and after serializing its user, the next request of that session passes the gate exactly when the profile's `id` is truthy |

## Left out

- Express application setup, middleware, static files, the routes and their HTML responses (index.js:8-20, 119-141): framework wiring with no logic of its own. This includes the profile page handler's second `findUser` call and its rendering.
- Passport strategy registration and the OAuth 2.0 authorization-code exchange (index.js:23-29): they run inside an external strategy whose code is not part of this model. How Passport stores the serialized id in the session is taken as `session.passport = { user: id }` (`AuthGate.LoggedInSession`).
- The HTTP call itself (index.js:96) and `JSON.parse` (index.js:107): the response is an input value and the parser is a total function parameter, so a body that fails to parse (an exception in the source) is not modelled. `JSON.stringify` for rendering is out with the routes.
- `app.listen` and the `PORT` environment variable (index.js:9, 147-149): process I/O.
- appConfig.js is not modelled beyond the one value the core reads, `requestUrl`, which is the constant `BearerClient.RequestUrl`.
- Callback asynchrony: each callback is a synchronous function of its inputs, and `handleRequest` returns the list of its callback invocations.
- MergeProfile: the source writes `accessToken` into the parsed object in place. The model returns the updated value instead. Nothing else holds a reference to the parsed body, so the difference cannot be observed.
- JsValue.IntToString: numbers are unbounded integers. Fractional numbers, NaN, the exponential form JavaScript uses from 10^21 upward, and the precision lost above 2^53 are not modelled.
- JSON arrays and inherited properties are not part of the value model. The fixed keys the core reads (`passport`, `user`, `id`, `data`, `accessToken`) are not properties of any built-in prototype, so this costs nothing for them.
- SessionStore.Lookup, SessionStore.UserStore.SerializeUser, SessionStore.Store, AuthGate.FindUser, AuthGate.RequireTokenAdmitsExactly: the `users` table is modelled as a plain map from key to record. The key `String(id)` comes from the data, so the source can differ for some ids. The round trip, the frame and the gate's accept condition are proved only for an id whose key is not `__proto__` and is not a property of an empty array, whether own (`length`) or inherited (`constructor`, `push` and the other `Array.prototype` and `Object.prototype` members). In the source, reading such a key from an empty table gives a function or a number, not `undefined`. Writing under `length` throws a RangeError. Writing under `__proto__` replaces the array's prototype, after which missing slots read the stored user's fields.
- SessionStore.UserStore.SerializeUser: requires a truthy user. Passport serializes only a user that its strategy delivered as truthy.
