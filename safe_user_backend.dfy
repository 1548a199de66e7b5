/** The server's six-field public view of a user. */
module BackendSafeUser {
  import opened Js

  const SafeUserKeys: set<string> := {"_id", "firstName", "lastName", "email", "profilePic", "userType"}

  /** `buildSafeUser(user)`: null for a falsy user, otherwise exactly the six kept
      fields, each copied unchanged. */
  function BuildSafeUser(user: Value): (r: Value)
    ensures !Truthy(user) <==> r == Null
    ensures Truthy(user) ==> r.Obj? && r.fields.Keys == SafeUserKeys
    ensures Truthy(user) ==> forall k :: k in r.fields ==> r.fields[k] == Field(user, k)
  {
    if !Truthy(user) then Null
    else Obj(map k | k in SafeUserKeys :: Field(user, k))
  }

  /** Neither the hash nor the city nor any other field leaves the helper. */
  lemma DropsPassword(user: Value)
    requires Truthy(user)
    ensures "password" !in BuildSafeUser(user).fields
    ensures "city" !in BuildSafeUser(user).fields
    ensures forall k :: k in BuildSafeUser(user).fields ==> k in SafeUserKeys
  {
  }
}
