/**
  The process-wide `users` table behind the session framework's serialize
  and deserialize hooks. The source keeps it in a JavaScript array indexed
  by the user's `id` field; indexing an array converts the index to a
  property key with ToString, so the table is a map from that key to the
  stored user record.
 */
module SessionStore {
  import opened JsValue

  /** The contents of `users`: property key to stored user record. Keys that
      name a property every array already has (`length`, `constructor`,
      `push`, ...) or `__proto__` behave differently on a real array and
      are outside this model. */
  type Slots = map<string, Value>

  /** The slot that `users[id]` reads and writes. */
  function SlotOf(id: Value): string {
    ToStr(id)
  }

  /** `users[id]`: the record stored under the key of `id`, or `undefined`. */
  function Lookup(users: Slots, id: Value): Value {
    if SlotOf(id) in users then users[SlotOf(id)] else Undefined
  }

  /** The session framework stores only users that authenticated, and a
      failed authentication delivers a falsy user. */
  ghost predicate StoredUsersTruthy(users: Slots) {
    forall k :: k in users ==> Truthy(users[k])
  }

  /** `users[user.id] = user`, the table's only update. */
  function Store(users: Slots, user: Value): (r: Slots)
    requires Truthy(user)
    ensures r.Keys == users.Keys + {SlotOf(Prop(user, "id"))}
    ensures Lookup(r, Prop(user, "id")) == user
    ensures forall other :: SlotOf(other) != SlotOf(Prop(user, "id")) ==>
              Lookup(r, other) == Lookup(users, other)
  {
    users[SlotOf(Prop(user, "id")) := user]
  }

  class UserStore {
    var users: Slots

    ghost predicate Valid()
      reads this
    {
      StoredUsersTruthy(users)
    }

    /** `var users = [];` */
    constructor ()
      ensures Valid() && users == map[]
    {
      users := map[];
    }

    /** The serialize hook: stores `user` under its own `id` and hands that
        id to the session layer. Only the slot of that id changes. */
    method SerializeUser(user: Value) returns (id: Value)
      requires Valid()
      requires Truthy(user)
      modifies this
      ensures Valid()
      ensures id == Prop(user, "id")
      ensures users == Store(old(users), user)
      ensures DeserializeUser(id) == user
      ensures forall other :: SlotOf(other) != SlotOf(id) ==>
                DeserializeUser(other) == old(DeserializeUser(other))
    {
      users := users[SlotOf(Prop(user, "id")) := user];
      id := Prop(user, "id");
    }

    /** The deserialize hook: the record stored for `id`, if any. In a valid
        table a record is found exactly when it is truthy. */
    function DeserializeUser(id: Value): (u: Value)
      reads this
      requires Valid()
      ensures Truthy(u) <==> SlotOf(id) in users
      ensures SlotOf(id) in users ==> u == users[SlotOf(id)]
      ensures SlotOf(id) !in users ==> u == Undefined
    {
      Lookup(users, id)
    }
  }

  /** Serializing a user keeps every table valid. */
  lemma StorePreservesTruthy(users: Slots, user: Value)
    requires StoredUsersTruthy(users) && Truthy(user)
    ensures StoredUsersTruthy(Store(users, user))
  {
  }

  /** Numeric ids do not collide: storing a user with numeric id `i` leaves
      the user of every other numeric id `j` where it was. */
  lemma StoreKeepsOtherNumericIds(users: Slots, user: Value, j: int)
    requires Truthy(user) && Prop(user, "id").Num? && Prop(user, "id").n != j
    ensures Lookup(Store(users, user), Num(j)) == Lookup(users, Num(j))
  {
    IntToStringInjective(Prop(user, "id").n, j);
  }

  /** Reading a number and reading its decimal numeral read the same slot. */
  lemma LookupNumberAsNumeral(users: Slots, n: int)
    ensures Lookup(users, Num(n)) == Lookup(users, Str(IntToString(n)))
  {
  }

  /** A number and the string of its digits select the same slot, so a user
      whose id is the string "5" replaces the user whose id is the number 5. */
  lemma NumberAndNumeralShareSlot(users: Slots, first: Value, second: Value)
    requires first.Obj? && Prop(first, "id") == Num(5)
    requires second.Obj? && Prop(second, "id") == Str("5")
    ensures Lookup(Store(Store(users, first), second), Num(5)) == second
  {
  }
}
