/** The client's clean-up of a user object received from the server. */
module ClientSafeUser {
  import opened Js
  import Text

  /** `buildSafeUser(user)` on the client. `None` is a null or undefined user; the
      result `None` is the null it returns. Reading `email.split` on an email that
      is not a string throws, which is `TypeError`. A fresh object is built, so
      the argument is never changed. */
  function BuildSafeUser(user: Option<map<string, Value>>): (r: Result<Option<map<string, Value>>>)
    ensures user.None? ==> r == Ok(None)
    ensures user.Some? && r.Ok? ==> r.value.Some?
    ensures r.TypeError? <==>
      user.Some? && !Truthy(Get(user.value, "firstName")) && !Truthy(Get(user.value, "lastName"))
      && !Get(user.value, "email").Str?
  {
    if user.None? then Ok(None)
    else
      var u := user.value;
      var copy := u - {"password"};
      var safe := copy["profilePic" := if Truthy(Get(copy, "profilePic")) then copy["profilePic"] else Null];
      if !Truthy(Get(safe, "firstName")) && !Truthy(Get(safe, "lastName")) then
        match Get(safe, "email")
        case Str(email) => Ok(Some(safe["firstName" := Str(Text.BeforeFirst(email, '@'))]))
        case _ => TypeError
      else Ok(Some(safe))
  }

  /** What the returned object holds: no password; a profilePic that is the given
      one when truthy and null otherwise; both names as given unless both are
      falsy, in which case firstName is the email up to its first "@" (all of it
      when it has none); every other key copied. */
  lemma BuildSafeUserFields(u: map<string, Value>)
    requires BuildSafeUser(Some(u)).Ok?
    ensures var s := BuildSafeUser(Some(u)).value.value;
      && "password" !in s
      && s.Keys == (u.Keys - {"password"}) + {"profilePic"}
           + (if Truthy(Get(u, "firstName")) || Truthy(Get(u, "lastName")) then {} else {"firstName"})
      && s["profilePic"] == (if Truthy(Get(u, "profilePic")) then u["profilePic"] else Null)
      && (forall k :: k in u && k !in {"password", "profilePic", "firstName"} ==> s[k] == u[k])
      && (Truthy(Get(u, "firstName")) || Truthy(Get(u, "lastName")) ==>
            Get(s, "firstName") == Get(u, "firstName") && Get(s, "lastName") == Get(u, "lastName"))
      && (!Truthy(Get(u, "firstName")) && !Truthy(Get(u, "lastName")) ==>
            var email := Get(u, "email").s;
            && s["firstName"] == Str(Text.BeforeFirst(email, '@'))
            && ('@' !in email ==> s["firstName"] == Str(email))
            && Get(s, "lastName") == Get(u, "lastName"))
  {
    var s := BuildSafeUser(Some(u)).value.value;
    if !Truthy(Get(u, "firstName")) && !Truthy(Get(u, "lastName")) {
      var email := Get(u, "email").s;
      var b := Text.BeforeFirst(email, '@');
      if '@' !in email {
        assert |b| == |email|;
      }
    }
  }
}
