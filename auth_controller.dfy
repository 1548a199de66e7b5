/** The account handlers: current user, profile update, login, logout, signup. */
module AuthController {
  import opened Js
  import opened Models
  import opened State
  import Base64
  import Bcrypt

  // ---------------------------------------------------------------------------
  // Views of a user

  /** `toObject()` of a document read without its hash. */
  function PublicObject(id: Id, u: User): (r: map<string, Value>)
    ensures "password" !in r
    ensures r.Keys == UserObject(id, u).Keys - {"password"}
    ensures forall k :: k in r ==> r[k] == UserObject(id, u)[k]
  {
    UserObject(id, u) - {"password"}
  }

  /** "data:<mime type>;base64,<bytes>" for a stored picture. */
  function AvatarUrl(a: Avatar): string {
    Base64.DataUrl(a.mimeType, a.bytes)
  }

  /** The user `getCurrentUser` answers with: no hash, the picture as a data URL,
      its media type kept beside it. */
  function CurrentUserView(id: Id, u: User): (r: map<string, Value>)
    ensures "password" !in r
    ensures "profilePic" in r <==> u.profilePic.Some?
    ensures u.profilePic.Some? ==> r["profilePic"] == Str(AvatarUrl(u.profilePic.value))
    ensures forall k :: k in UserObject(id, u) && k != "password" && k != "profilePic" ==>
      k in r && r[k] == UserObject(id, u)[k]
    ensures forall k :: k in r && k != "profilePic" ==> k in UserObject(id, u) && r[k] == UserObject(id, u)[k]
  {
    ObjectKeysFacts(u);
    var o := PublicObject(id, u);
    if u.profilePic.Some? then o["profilePic" := Str(AvatarUrl(u.profilePic.value))] else o
  }

  /** The user `postLogin` answers with: no hash and no media type; the picture, if
      any, as a data URL. */
  function LoginView(id: Id, u: User): (r: map<string, Value>)
    ensures "password" !in r && "profilePicMimeType" !in r
    ensures "profilePic" in r <==> u.profilePic.Some?
    ensures u.profilePic.Some? ==> r["profilePic"] == Str(AvatarUrl(u.profilePic.value))
    ensures forall k :: k in r && k != "profilePic" ==> k in UserObject(id, u) && r[k] == UserObject(id, u)[k]
    ensures forall k :: k in UserObject(id, u) && k != "password" && k != "profilePic" && k != "profilePicMimeType" ==>
      k in r && r[k] == UserObject(id, u)[k]
  {
    var rest := UserObject(id, u) - {"password", "profilePic", "profilePicMimeType"};
    if u.profilePic.Some? then rest["profilePic" := Str(AvatarUrl(u.profilePic.value))] else rest
  }

  /** A data URL in either view gives back the stored bytes and media type. */
  lemma AvatarUrlRoundTrip(id: Id, u: User)
    requires u.profilePic.Some? && ';' !in u.profilePic.value.mimeType
    ensures var a := u.profilePic.value;
      && Base64.ParseDataUrl(CurrentUserView(id, u)["profilePic"].s) == Some((a.mimeType, a.bytes))
      && Base64.ParseDataUrl(LoginView(id, u)["profilePic"].s) == Some((a.mimeType, a.bytes))
  {
    Base64.DataUrlRoundTrip(u.profilePic.value.mimeType, u.profilePic.value.bytes);
  }

  const SnapshotKeys: set<string> := {"_id", "firstName", "lastName", "email", "userType", "city"}

  /** The minimal user object a login stores in the session. */
  function Snapshot(id: Id, u: User): (r: map<string, Value>)
    ensures r.Keys == SnapshotKeys && "password" !in r
    ensures r["_id"] == Str(id)
    ensures r["firstName"] == u.firstName && r["lastName"] == u.lastName && r["email"] == u.email
    ensures r["userType"] == u.userType && r["city"] == u.city
  {
    map["_id" := Str(id), "firstName" := u.firstName, "lastName" := u.lastName,
        "email" := u.email, "userType" := u.userType, "city" := u.city]
  }

  /** A snapshot finds its user again. */
  lemma SnapshotFindsUser(users: map<Id, User>, id: Id)
    requires id in users
    ensures SessionUserId(users, Snapshot(id, users[id])) == Some(id)
  {
  }

  // ---------------------------------------------------------------------------
  // getCurrentUser

  predicate LoggedIn(isLoggedIn: bool, user: Option<map<string, Value>>) {
    isLoggedIn && user.Some?
  }

  function UserBody(user: Value): Value {
    Obj(map["user" := user])
  }

  /** `getCurrentUser`. */
  method GetCurrentUser(db: Db, session: Session) returns (res: Response)
    ensures !LoggedIn(session.isLoggedIn, session.user) ==> res == Json(200, UserBody(Null))
    ensures LoggedIn(session.isLoggedIn, session.user) && SessionUserId(db.users, session.user.value).None? ==>
      res == Json(404, ErrorBody("User not found"))
    ensures LoggedIn(session.isLoggedIn, session.user) && SessionUserId(db.users, session.user.value).Some? ==>
      var id := SessionUserId(db.users, session.user.value).value;
      res == Json(200, UserBody(Obj(CurrentUserView(id, db.users[id]))))
  {
    if !LoggedIn(session.isLoggedIn, session.user) {
      return Json(200, UserBody(Null));
    }
    var id := SessionUserId(db.users, session.user.value);
    if id.None? {
      return Json(404, ErrorBody("User not found"));
    }
    res := Json(200, UserBody(Obj(CurrentUserView(id.value, db.users[id.value]))));
  }

  // ---------------------------------------------------------------------------
  // updateUserProfile

  /** The fields of a profile form; `Undefined` is a field the form did not send. */
  datatype Patch = Patch(firstName: Value, middleName: Value, lastName: Value, email: Value,
                         userType: Value, city: Value, password: Value)

  function Provided(sent: Value, current: Value): (r: Value)
    ensures sent != Undefined ==> r == sent
    ensures sent == Undefined ==> r == current
  {
    if sent != Undefined then sent else current
  }

  /** The user after an update whose new hash, if any, is `hash` and whose new
      picture, if any, is `picture`. */
  function Patched(u: User, p: Patch, hash: string, picture: Option<Upload>): (r: User)
    ensures r.firstName == Provided(p.firstName, u.firstName)
    ensures r.middleName == Provided(p.middleName, u.middleName)
    ensures r.lastName == Provided(p.lastName, u.lastName)
    ensures r.email == Provided(p.email, u.email)
    ensures r.userType == Provided(p.userType, u.userType)
    ensures r.city == Provided(p.city, u.city)
    ensures r.password == (if Truthy(p.password) then hash else u.password)
    ensures r.profilePic == (if picture.Some? then Some(Avatar(picture.value.buffer, picture.value.mimetype))
                             else u.profilePic)
    ensures r.bookings == u.bookings && r.favourites == u.favourites
  {
    User(Provided(p.firstName, u.firstName), Provided(p.middleName, u.middleName),
         Provided(p.lastName, u.lastName), Provided(p.email, u.email),
         if Truthy(p.password) then hash else u.password,
         Provided(p.userType, u.userType), Provided(p.city, u.city),
         if picture.Some? then Some(Avatar(picture.value.buffer, picture.value.mimetype)) else u.profilePic,
         u.bookings, u.favourites)
  }

  /** A form that sends nothing and no picture changes nothing; a blank password
      keeps the old hash; a non-empty one replaces it with a hash of itself. */
  lemma PatchedProperties(u: User, p: Patch, salt: string)
    requires |salt| == Bcrypt.SaltLength
    ensures p == Patch(Undefined, Undefined, Undefined, Undefined, Undefined, Undefined, Undefined) ==>
      Patched(u, p, "", None) == u
    ensures p.password == Str("") ==> Patched(u, p, "", None).password == u.password
    ensures p.password.Str? && p.password.s != "" ==>
      var h := Bcrypt.Hash(p.password.s, salt);
      Bcrypt.Compare(p.password.s, Patched(u, p, h, None).password)
  {
  }

  /** The body an update answers with, as corrected: the user without the hash. */
  function UpdateBody(id: Id, u: User): Value {
    Obj(map["message" := Str("Profile updated successfully"), "user" := Obj(PublicObject(id, u))])
  }

  /** As written, the handler answers with the whole document and stores the whole
      document in the session, hash included. */
  function UpdateBodyAsWritten(id: Id, u: User): Value {
    Obj(map["message" := Str("Profile updated successfully"), "user" := Obj(UserObject(id, u))])
  }

  /** `updateUserProfile`, with the response and the session using the corrected
      password-free objects. `hashFailure` is the message bcrypt rejects a non-string
      password with. */
  method UpdateUserProfile(db: Db, session: Session, p: Patch, file: Option<Upload>, salt: string, hashFailure: string)
    returns (res: Response)
    requires |salt| == Bcrypt.SaltLength && db.Valid()
    modifies db`users, session`user
    ensures db.Valid()
    ensures !LoggedIn(session.isLoggedIn, old(session.user)) ==>
      res == Json(401, ErrorBody("Unauthorized")) && db.users == old(db.users) && session.user == old(session.user)
    ensures LoggedIn(session.isLoggedIn, old(session.user)) && SessionUserId(old(db.users), old(session.user).value).None? ==>
      res == Json(404, ErrorBody("User not found")) && db.users == old(db.users) && session.user == old(session.user)
    ensures LoggedIn(session.isLoggedIn, old(session.user)) && SessionUserId(old(db.users), old(session.user).value).Some?
            && Truthy(p.password) && !p.password.Str? ==>
      && res == Json(500, ErrorBody("Failed to update profile: " + hashFailure))
      && db.users == old(db.users) && session.user == old(session.user)
    ensures LoggedIn(session.isLoggedIn, old(session.user)) && SessionUserId(old(db.users), old(session.user).value).Some?
            && (Truthy(p.password) ==> p.password.Str?) ==>
      var id := SessionUserId(old(db.users), old(session.user).value).value;
      var hash := if Truthy(p.password) then Bcrypt.Hash(p.password.s, salt) else "";
      var u := Patched(old(db.users)[id], p, hash, Single("profilePic", file));
      && db.users == old(db.users)[id := u]
      && session.user == Some(Snapshot(id, u))
      && res == Json(200, UpdateBody(id, u))
  {
    if !LoggedIn(session.isLoggedIn, session.user) {
      return Json(401, ErrorBody("Unauthorized"));
    }
    var id := SessionUserId(db.users, session.user.value);
    if id.None? {
      return Json(404, ErrorBody("User not found"));
    }
    var hash := "";
    if Truthy(p.password) {
      if !p.password.Str? {
        return Json(500, ErrorBody("Failed to update profile: " + hashFailure));
      }
      hash := Bcrypt.Hash(p.password.s, salt);
    }
    var u := Patched(db.users[id.value], p, hash, Single("profilePic", file));
    db.users := db.users[id.value := u];
    session.user := Some(Snapshot(id.value, u));
    res := Json(200, UpdateBody(id.value, u));
  }

  // ---------------------------------------------------------------------------
  // postLogin, postLogout

  function LoginBody(id: Id, u: User): Value {
    Obj(map["message" := Str("Login successful"), "user" := Obj(LoginView(id, u))])
  }

  /** The users `findOne({ email })` may return. A string email is compared with
      each stored email. Any other JSON value the body parsers deliver (an object
      such as `{"$ne": null}`, an array, a number, null) is cast by Mongoose and
      read by the driver as a query operator; `hits` are the users that query
      selects. */
  predicate Registered(users: map<Id, User>, email: Value, hits: set<Id>, id: Id) {
    id in users && (if email.Str? then users[id].email == email else id in hits)
  }

  /** `postLogin`. `findOne({ email })` may return any user the query selects;
      `compareFailure` is the message bcrypt rejects a non-string password with. */
  method PostLogin(db: Db, session: Session, email: Value, hits: set<Id>, password: Value, compareFailure: string)
    returns (res: Response)
    modifies session
    ensures (forall id :: !Registered(db.users, email, hits, id)) ==>
      && res == Json(422, ErrorsBody("User does not exist"))
      && session.isLoggedIn == old(session.isLoggedIn) && session.user == old(session.user)
    ensures (exists id :: Registered(db.users, email, hits, id)) && !password.Str? ==>
      && res == Json(500, ErrorsBody("Login failed: " + compareFailure))
      && session.isLoggedIn == old(session.isLoggedIn) && session.user == old(session.user)
    ensures (exists id :: Registered(db.users, email, hits, id)) && password.Str?
            && (forall id :: Registered(db.users, email, hits, id) ==> !Bcrypt.Compare(password.s, db.users[id].password)) ==>
      && res == Json(422, ErrorsBody("Invalid Password"))
      && session.isLoggedIn == old(session.isLoggedIn) && session.user == old(session.user)
    ensures (exists id :: Registered(db.users, email, hits, id)) && password.Str?
            && (forall id :: Registered(db.users, email, hits, id) ==> Bcrypt.Compare(password.s, db.users[id].password)) ==>
      res.Json? && res.status == 200
    ensures (exists id :: Registered(db.users, email, hits, id)) && password.Str? ==>
      res == Json(422, ErrorsBody("Invalid Password")) || (res.Json? && res.status == 200)
    ensures res.Json? && res.status == 200 ==>
      exists id :: Registered(db.users, email, hits, id) && password.Str?
        && Bcrypt.Compare(password.s, db.users[id].password)
        && session.isLoggedIn && session.user == Some(Snapshot(id, db.users[id]))
        && res == Json(200, LoginBody(id, db.users[id]))
    ensures !(res.Json? && res.status == 200) ==>
      session.isLoggedIn == old(session.isLoggedIn) && session.user == old(session.user)
  {
    if forall id :: id in db.users ==> !Registered(db.users, email, hits, id) {
      return Json(422, ErrorsBody("User does not exist"));
    }
    var id :| id in db.users && Registered(db.users, email, hits, id);
    var u := db.users[id];
    if !password.Str? {
      return Json(500, ErrorsBody("Login failed: " + compareFailure));
    }
    if !Bcrypt.Compare(password.s, u.password) {
      return Json(422, ErrorsBody("Invalid Password"));
    }
    session.isLoggedIn := true;
    session.user := Some(Snapshot(id, u));
    res := Json(200, LoginBody(id, u));
  }

  /** `postLogout`: the session is destroyed. */
  method PostLogout(session: Session) returns (res: Response)
    modifies session
    ensures !session.isLoggedIn && session.user.None?
    ensures res == Json(200, MessageBody("Logout successful"))
  {
    session.isLoggedIn := false;
    session.user := None;
    res := Json(200, MessageBody("Logout successful"));
  }

  // ---------------------------------------------------------------------------
  // postSignup

  /** The document `new User({...})` saves: the names and email as sent, the hash,
      the picture if one was kept, and empty lists. */
  function NewUser(firstName: Value, lastName: Value, email: Value, hash: string, picture: Option<Upload>): User {
    User(firstName, Undefined, lastName, email, hash, Undefined, Undefined,
         if picture.Some? then Some(Avatar(picture.value.buffer, picture.value.mimetype)) else None,
         [], [])
  }

  predicate EmailTaken(users: map<Id, User>, email: Value, hits: set<Id>) {
    exists id :: id in users && Registered(users, email, hits, id)
  }

  /** The body a signup answers with, as corrected: the new user without the hash. */
  function SignupBody(id: Id, u: User): Value {
    Obj(map["message" := Str("User created successfully"), "user" := Obj(PublicObject(id, u))])
  }

  /** As written, the signup answer carries the whole new document. */
  function SignupBodyAsWritten(id: Id, u: User): Value {
    Obj(map["message" := Str("User created successfully"), "user" := Obj(UserObject(id, u))])
  }

  /** `postSignup`. It has no access to the session, so it never logs the new user
      in. `failure` is the message of the rejected hash or save call. */
  method PostSignup(db: Db, firstName: Value, lastName: Value, email: Value, hits: set<Id>, password: Value,
                    file: Option<Upload>, newId: Id, salt: string, failure: string)
    returns (res: Response)
    requires |salt| == Bcrypt.SaltLength && db.Valid()
    modifies db`users
    ensures db.Valid()
    ensures !Truthy(email) || !Truthy(password) ==>
      res == Json(422, ErrorsBody("Email and password are required")) && db.users == old(db.users)
    ensures Truthy(email) && Truthy(password) && EmailTaken(old(db.users), email, hits) ==>
      res == Json(422, ErrorsBody("User already exists")) && db.users == old(db.users)
    ensures Truthy(email) && Truthy(password) && !EmailTaken(old(db.users), email, hits)
            && (!password.Str? || newId in old(db.users)) ==>
      res == Json(500, ErrorsBody("Signup failed: " + failure)) && db.users == old(db.users)
    ensures Truthy(email) && Truthy(password) && !EmailTaken(old(db.users), email, hits)
            && password.Str? && newId !in old(db.users) ==>
      var u := NewUser(firstName, lastName, email, Bcrypt.Hash(password.s, salt), Single("photo", file));
      && db.users == old(db.users)[newId := u]
      && res == Json(201, SignupBody(newId, u))
  {
    if !Truthy(email) || !Truthy(password) {
      return Json(422, ErrorsBody("Email and password are required"));
    }
    if EmailTaken(db.users, email, hits) {
      return Json(422, ErrorsBody("User already exists"));
    }
    if !password.Str? || newId in db.users {
      // bcrypt rejects a non-string password; a duplicate key makes `save` reject
      return Json(500, ErrorsBody("Signup failed: " + failure));
    }
    var u := NewUser(firstName, lastName, email, Bcrypt.Hash(password.s, salt), Single("photo", file));
    db.users := db.users[newId := u];
    res := Json(201, SignupBody(newId, u));
  }

  /** After a signup the new user is the only one the same email query finds, its
      lists are empty, and its hash accepts exactly the passwords that agree with
      the one it was made from on bcrypt's key stream. */
  lemma SignupThenLoginMatches(users: map<Id, User>, firstName: Value, lastName: Value, email: Value, hits: set<Id>,
                               password: string, candidate: string, file: Option<Upload>, newId: Id, salt: string)
    requires |salt| == Bcrypt.SaltLength && !EmailTaken(users, email, hits) && newId !in users
    ensures var u := NewUser(firstName, lastName, email, Bcrypt.Hash(password, salt), Single("photo", file));
      var after := users[newId := u];
      && (forall id :: Registered(after, email, hits, id) ==> id == newId)
      && (Bcrypt.Compare(candidate, after[newId].password) <==>
            Bcrypt.Significant(candidate) == Bcrypt.Significant(password))
      && after[newId].bookings == [] && after[newId].favourites == []
  {
    Bcrypt.CompareHash(password, candidate, salt);
  }

  /** A signup followed by a login with the same email and password logs the new
      user in with a password-free answer; after a logout the current user is null. */
  method SignupLoginLogout(db: Db, session: Session, email: Value, hits: set<Id>, password: string, newId: Id, salt: string)
    returns (login: Response, current: Response)
    requires |salt| == Bcrypt.SaltLength && Truthy(email) && password != ""
    requires !EmailTaken(db.users, email, hits) && newId !in db.users && (email.Str? || newId in hits) && db.Valid()
    modifies db`users, session
    ensures newId in db.users && db.users[newId].email == email
    ensures login == Json(200, LoginBody(newId, db.users[newId]))
    ensures "password" !in login.body.fields["user"].fields
    ensures current == Json(200, UserBody(Null))
  {
    var signup := PostSignup(db, Null, Null, email, hits, Str(password), None, newId, salt, "");
    SignupThenLoginMatches(old(db.users), Null, Null, email, hits, password, password, None, newId, salt);
    assert Registered(db.users, email, hits, newId);
    login := PostLogin(db, session, email, hits, Str(password), "");
    var _ := PostLogout(session);
    current := GetCurrentUser(db, session);
  }

  // ---------------------------------------------------------------------------
  // The hash in the answers of updateUserProfile and postSignup

  /** As written, an update stores the whole saved document in the session. */
  function SessionAfterUpdateAsWritten(id: Id, u: User): map<string, Value> {
    UserObject(id, u)
  }

  /** As written, both answers and the session after an update hold the stored
      hash. */
  lemma AsWrittenBodiesCarryHash(id: Id, u: User)
    ensures UpdateBodyAsWritten(id, u).fields["user"].fields["password"] == Str(u.password)
    ensures SignupBodyAsWritten(id, u).fields["user"].fields["password"] == Str(u.password)
    ensures SessionAfterUpdateAsWritten(id, u)["password"] == Str(u.password)
  {
    ObjectKeysFacts(u);
  }

  /** As corrected, neither answer nor the session after an update holds it. */
  lemma CorrectedBodiesHideHash(id: Id, u: User)
    ensures "password" !in UpdateBody(id, u).fields["user"].fields
    ensures "password" !in SignupBody(id, u).fields["user"].fields
    ensures "password" !in Snapshot(id, u)
    ensures forall k :: k in UpdateBody(id, u).fields["user"].fields ==>
      UpdateBody(id, u).fields["user"].fields[k] == UpdateBodyAsWritten(id, u).fields["user"].fields[k]
  {
  }
}
