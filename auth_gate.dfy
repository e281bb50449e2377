/**
  The request filter in front of the profile page (`requireToken`) and the
  lookup of the session's user (`findUser`). A session is the object the
  session middleware attaches to the request; after a login the session
  framework keeps the id that the serialize hook handed it under
  `session.passport.user`.
 */
module AuthGate {
  import opened JsValue
  import opened SessionStore

  /** The session object's own properties. */
  type Session = map<string, Value>

  /** Where the gate sends a request that is not let through. */
  const LoginPath: string := "/login"

  datatype Decision = Next | Redirect(location: string)

  /** `req.session.passport` */
  function Passport(session: Session): Value {
    Prop(Obj(session), "passport")
  }

  /** The session the session framework keeps once the serialize hook has
      handed it `id`. */
  function LoggedInSession(id: Value): Session {
    map["passport" := Obj(map["user" := id])]
  }

  /** `users[req.session.passport.user]`; reading `user` of a nullish
      `passport` would throw. */
  function FindUser(users: Slots, session: Session): (u: Value)
    requires !IsNullish(Passport(session))
    ensures SlotOf(Prop(Passport(session), "user")) in users ==>
              u == users[SlotOf(Prop(Passport(session), "user"))]
    ensures SlotOf(Prop(Passport(session), "user")) !in users ==> u == Undefined
    ensures StoredUsersTruthy(users) ==>
              (Truthy(u) <==> SlotOf(Prop(Passport(session), "user")) in users)
  {
    Lookup(users, Prop(Passport(session), "user"))
  }

  /** The gate: the three guards are evaluated left to right and each later
      guard only when the earlier ones are truthy. */
  function RequireToken(users: Slots, session: Session): (d: Decision)
    ensures d == Next || d == Redirect(LoginPath)
    ensures d == Next ==> Truthy(Passport(session))
  {
    if Truthy(Passport(session))
       && Truthy(Prop(Passport(session), "user"))
       && Truthy(FindUser(users, session))
    then Next
    else Redirect(LoginPath)
  }

  /** In a table of authenticated users, the gate lets a request through
      exactly when the session carries a passport, the passport carries a
      truthy user id, and a record is stored for that id. */
  lemma RequireTokenAdmitsExactly(users: Slots, session: Session)
    requires StoredUsersTruthy(users)
    ensures RequireToken(users, session) == Next <==>
              && Truthy(Passport(session))
              && Truthy(Prop(Passport(session), "user"))
              && SlotOf(Prop(Passport(session), "user")) in users
  {
  }

  /** The lookup after a login finds exactly the record that was stored. */
  lemma FindUserAfterLogin(users: Slots, user: Value)
    requires Truthy(user)
    ensures FindUser(Store(users, user), LoggedInSession(Prop(user, "id"))) == user
  {
  }

  /** A user who has just logged in passes the gate exactly when their id is
      truthy. */
  lemma LoginPassesGateIffTruthyId(users: Slots, user: Value)
    requires Truthy(user)
    ensures (RequireToken(Store(users, user), LoggedInSession(Prop(user, "id"))) == Next)
              == Truthy(Prop(user, "id"))
  {
  }

  /** The falsy-id quirk: a user stored under id 0 is found by the lookup,
      yet the gate sends every request of that session to the login page. */
  lemma ZeroIdAlwaysRedirected(users: Slots, user: Value)
    requires Truthy(user) && Prop(user, "id") == Num(0)
    ensures FindUser(Store(users, user), LoggedInSession(Num(0))) == user
    ensures RequireToken(Store(users, user), LoggedInSession(Num(0))) == Redirect(LoginPath)
  {
  }

  /** A session without a passport never passes the gate. */
  lemma NoPassportRedirected(users: Slots, session: Session)
    requires "passport" !in session
    ensures RequireToken(users, session) == Redirect(LoginPath)
  {
  }
}
