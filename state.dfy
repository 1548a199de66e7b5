/** The state the handlers share: the database collections, the uploads directory,
    the session of the requesting client, and the shape of a response. */
module State {
  import opened Js
  import opened Models
  import MulterConfig
  import Lists

  /** The users and homes collections, and the names of the files present in the
      uploads directory. Each handler runs as one step over this state. */
  class Db {
    var users: map<Id, User>
    var homes: map<Id, Home>
    var files: set<string>

    /** No user lists an id twice in `bookings` or in `favourites`. */
    ghost predicate Valid()
      reads this
    {
      forall id :: id in users ==> ListsNoDup(users[id])
    }

    constructor (users: map<Id, User>, homes: map<Id, Home>, files: set<string>)
      requires forall id :: id in users ==> ListsNoDup(users[id])
      ensures Valid()
      ensures this.users == users && this.homes == homes && this.files == files
    {
      this.users := users;
      this.homes := homes;
      this.files := files;
    }
  }

  /** `req.session`: the login flag and the user object stored at login. */
  class Session {
    var isLoggedIn: bool
    var user: Option<map<string, Value>>

    /** A session that has not logged in. */
    constructor ()
      ensures !isLoggedIn && user.None?
    {
      isLoggedIn := false;
      user := None;
    }
  }

  /** The user that `User.findById(req.session.user._id)` finds: none when the
      stored object has no string `_id` or no such user exists. */
  function SessionUserId(users: map<Id, User>, sessionUser: map<string, Value>): (r: Option<Id>)
    ensures r.Some? <==> Get(sessionUser, "_id").Str? && Get(sessionUser, "_id").s in users
    ensures r.Some? ==> r.value in users && Get(sessionUser, "_id") == Str(r.value)
  {
    var id := Get(sessionUser, "_id");
    if id.Str? && id.s in users then Some(id.s) else None
  }

  /** An uploaded file as multer hands it over. Memory storage keeps the buffer
      and gives no file name. */
  datatype Upload = Upload(fieldname: string, filename: Option<string>, buffer: seq<byte>, mimetype: string)

  /** Whether the upload filter keeps a file sent under `field`. */
  predicate Kept(field: string, u: Upload) {
    u.fieldname == field && MulterConfig.FileFilter(field, u.mimetype).accept
  }

  /** `req.files[field]` after `upload.fields(...)`: the files of that field that
      passed the filter, in upload order. */
  function Accepted(uploads: seq<Upload>, field: string): (r: seq<Upload>)
    ensures forall i :: 0 <= i < |r| ==> r[i] in uploads && Kept(field, r[i])
    ensures forall i :: 0 <= i < |uploads| && Kept(field, uploads[i]) ==> uploads[i] in r
  {
    Lists.Filter(uploads, u => Kept(field, u))
  }

  /** What a field's batch can hold: under `rulesFile` exactly the PDFs sent under
      it, under `photo` exactly the PNG and JPEG images sent under it. */
  lemma AcceptedTypes(uploads: seq<Upload>, u: Upload)
    requires u in uploads
    ensures u.fieldname == "rulesFile" ==>
      (u in Accepted(uploads, "rulesFile") <==> u.mimetype == "application/pdf")
    ensures u.fieldname == "photo" ==>
      (u in Accepted(uploads, "photo") <==> u.mimetype in MulterConfig.ImageTypes)
    ensures forall i :: 0 <= i < |Accepted(uploads, "rulesFile")| ==>
      Accepted(uploads, "rulesFile")[i].mimetype == "application/pdf"
    ensures forall i :: 0 <= i < |Accepted(uploads, "photo")| ==>
      Accepted(uploads, "photo")[i].mimetype in MulterConfig.ImageTypes
  {
    var j :| 0 <= j < |uploads| && uploads[j] == u;
    forall field | u in Accepted(uploads, field) ensures Kept(field, u) {
      var r := Accepted(uploads, field);
      var k :| 0 <= k < |r| && r[k] == u;
    }
  }

  /** `req.file` after `upload.single(field)`: the file if the filter kept it. */
  function Single(field: string, file: Option<Upload>): (r: Option<Upload>)
    ensures r.Some? <==> file.Some? && MulterConfig.FileFilter(field, file.value.mimetype).accept
    ensures r.Some? ==> r == file
  {
    if file.Some? && MulterConfig.FileFilter(field, file.value.mimetype).accept then file else None
  }

  /** A response: a status with a JSON body, or a rendered page of one home. */
  datatype Response = Json(status: nat, body: Value) | Page(template: string, homeId: Id)

  function ErrorBody(message: string): Value {
    Obj(map["error" := Str(message)])
  }

  function ErrorsBody(message: string): Value {
    Obj(map["errors" := List([Str(message)])])
  }

  function MessageBody(message: string): Value {
    Obj(map["message" := Str(message)])
  }
}
