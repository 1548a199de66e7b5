/** The stored records: users and homes as the handlers read and write them, and the
    plain object `toObject()` makes of a user document. */
module Models {
  import opened Js
  import Lists

  /** Document ids (ObjectIds and their string forms are not told apart). */
  type Id = string

  /** A stored profile picture: the uploaded buffer and its media type. */
  datatype Avatar = Avatar(bytes: seq<byte>, mimeType: string)

  /** A user document. Fields a request may set to any JSON value are `Value`s;
      `Undefined` is a field the document does not have. */
  datatype User = User(
    firstName: Value,
    middleName: Value,
    lastName: Value,
    email: Value,
    password: string,
    userType: Value,
    city: Value,
    profilePic: Option<Avatar>,
    bookings: seq<Id>,
    favourites: seq<Id>)

  /** A home document: five scalars copied from the request, the stored names of
      the photo and of the house-rules PDF, and the `photo` path that the listing
      views read (no handler of the core writes it). */
  datatype Home = Home(
    houseName: Value,
    price: Value,
    location: Value,
    rating: Value,
    description: Value,
    photos: Option<string>,
    houseRulePdf: Option<string>,
    photo: Option<string>)

  /** A user's lists hold no id twice. */
  predicate ListsNoDup(u: User) {
    Lists.NoDup(u.bookings) && Lists.NoDup(u.favourites)
  }

  function IdList(ids: seq<Id>): (v: Value)
    ensures v.List? && |v.items| == |ids|
    ensures forall i :: 0 <= i < |ids| ==> v.items[i] == Str(ids[i])
  {
    if ids == [] then List([]) else List([Str(ids[0])] + IdList(ids[1..]).items)
  }

  /** The keys of `toObject()`: always the id, the hash and the two lists; each
      other field only when the document has it. */
  function ObjectKeys(u: User): set<string> {
    {"_id", "password", "bookings", "favourites"}
    + (if u.firstName != Undefined then {"firstName"} else {})
    + (if u.middleName != Undefined then {"middleName"} else {})
    + (if u.lastName != Undefined then {"lastName"} else {})
    + (if u.email != Undefined then {"email"} else {})
    + (if u.userType != Undefined then {"userType"} else {})
    + (if u.city != Undefined then {"city"} else {})
    + (if u.profilePic.Some? then {"profilePic", "profilePicMimeType"} else {})
  }

  /** The value `toObject()` gives a key. */
  function ObjectField(id: Id, u: User, k: string): Value {
    match k
    case "_id" => Str(id)
    case "password" => Str(u.password)
    case "bookings" => IdList(u.bookings)
    case "favourites" => IdList(u.favourites)
    case "firstName" => u.firstName
    case "middleName" => u.middleName
    case "lastName" => u.lastName
    case "email" => u.email
    case "userType" => u.userType
    case "city" => u.city
    case "profilePic" => if u.profilePic.Some? then Buffer(u.profilePic.value.bytes) else Undefined
    case "profilePicMimeType" => if u.profilePic.Some? then Str(u.profilePic.value.mimeType) else Undefined
    case _ => Undefined
  }

  /** `user.toObject()`: a plain object with no undefined entries, which keeps the
      hash and shows the picture as a buffer beside its media type. */
  function UserObject(id: Id, u: User): (o: map<string, Value>)
    ensures o.Keys == ObjectKeys(u)
    ensures forall k :: k in o ==> o[k] == ObjectField(id, u, k)
  {
    map k | k in ObjectKeys(u) :: ObjectField(id, u, k)
  }

  /** The picture keys are there exactly when the user has a picture; the hash and
      the id always are. */
  lemma ObjectKeysFacts(u: User)
    ensures "_id" in ObjectKeys(u) && "password" in ObjectKeys(u)
    ensures "profilePic" in ObjectKeys(u) <==> u.profilePic.Some?
    ensures "profilePicMimeType" in ObjectKeys(u) <==> u.profilePic.Some?
  {
    var others := ["_id", "password", "bookings", "favourites", "firstName", "middleName",
                   "lastName", "email", "userType", "city"];
    assert forall i :: 0 <= i < |others| ==> others[i] != "profilePic" && others[i] != "profilePicMimeType" by {
      assert "middleName"[0] != "profilePic"[0];
      assert "favourites"[0] != "profilePic"[0];
    }
  }
}
