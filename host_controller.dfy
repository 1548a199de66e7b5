/** The host's handlers: create, edit and delete a listing, with its stored files. */
module HostController {
  import opened Js
  import opened Models
  import opened State
  import Lists
  import StoreController

  /** The five scalars a listing form sends. */
  datatype HomeForm = HomeForm(houseName: Value, price: Value, location: Value, rating: Value, description: Value)

  /** The uploads directory after `deleteFile(name)`. */
  function Removed(files: set<string>, name: Option<string>): (r: set<string>)
    ensures r <= files
    ensures !Present(name) ==> r == files
    ensures Present(name) ==> name.value !in r && files - r <= {name.value}
  {
    if Present(name) then files - {name.value} else files
  }

  /** `deleteFile(filename)`: nothing for a missing or empty name, otherwise the
      file is unlinked (a name with no file behind it is only logged). */
  method DeleteFile(db: Db, name: Option<string>)
    modifies db`files
    ensures db.files == Removed(old(db.files), name)
  {
    if !Present(name) {
      return;
    }
    db.files := db.files - {name.value};
  }

  /** A new home document. */
  function NewHome(form: HomeForm, photos: Option<string>, houseRulePdf: Option<string>): Home {
    Home(form.houseName, form.price, form.location, form.rating, form.description, photos, houseRulePdf, None)
  }

  /** The name recorded for a file field: the first kept upload's name, or nothing. */
  function FirstName(files: seq<Upload>): (r: Option<string>)
    ensures files == [] ==> r.None?
    ensures files != [] ==> r == files[0].filename
  {
    if files == [] then None else files[0].filename
  }

  /** The listing views read `photo`, which these handlers never set: a home they
      create has a null `photoUrl` whatever was uploaded. */
  lemma NewHomeHasNoPhotoUrl(id: Id, form: HomeForm, photos: Option<string>, houseRulePdf: Option<string>)
    ensures StoreController.ListingView(id, NewHome(form, photos, houseRulePdf))["photoUrl"] == Null
  {
  }

  /** `postAddHome` (not routed): a single image is required. */
  method PostAddHome(db: Db, form: HomeForm, file: Option<Upload>, newId: Id) returns (res: Response)
    modifies db`homes
    ensures file.None? ==>
      res == Json(422, ErrorBody("No image provided")) && db.homes == old(db.homes)
    ensures file.Some? && newId in old(db.homes) ==>
      res == Json(500, ErrorBody("Failed to save home")) && db.homes == old(db.homes)
    ensures file.Some? && newId !in old(db.homes) ==>
      && res == Json(201, MessageBody("Home added successfully"))
      && db.homes == old(db.homes)[newId := NewHome(form, file.value.filename, None)]
  {
    if file.None? {
      return Json(422, ErrorBody("No image provided"));
    }
    if newId in db.homes {
      // a duplicate key makes `save` reject
      return Json(500, ErrorBody("Failed to save home"));
    }
    db.homes := db.homes[newId := NewHome(form, file.value.filename, None)];
    res := Json(201, MessageBody("Home added successfully"));
  }

  /** `postAddHomeApi`: both files are optional; each field records the first file
      the upload filter kept under it, or null. */
  method PostAddHomeApi(db: Db, form: HomeForm, uploads: seq<Upload>, newId: Id) returns (res: Response)
    modifies db`homes
    ensures res.Json? && (res.status == 201 <==> newId !in old(db.homes))
    ensures newId in old(db.homes) ==>
      res == Json(500, ErrorBody("Failed to add home")) && db.homes == old(db.homes)
    ensures newId !in old(db.homes) ==>
      && res == Json(201, MessageBody("Home added successfully"))
      && db.homes == old(db.homes)[newId := NewHome(form, FirstName(Accepted(uploads, "photo")),
                                                  FirstName(Accepted(uploads, "rulesFile")))]
  {
    var photos := FirstName(Accepted(uploads, "photo"));
    var houseRulePdf := FirstName(Accepted(uploads, "rulesFile"));
    if newId in db.homes {
      return Json(500, ErrorBody("Failed to add home"));
    }
    db.homes := db.homes[newId := NewHome(form, photos, houseRulePdf)];
    res := Json(201, MessageBody("Home added successfully"));
  }

  /** The five scalars of an edit, assigned whatever they are. */
  function Assigned(h: Home, form: HomeForm): Home {
    h.(houseName := form.houseName, price := form.price, location := form.location,
       rating := form.rating, description := form.description)
  }

  /** A file reference after an edit: the first new upload's name when there is one. */
  function Replaced(current: Option<string>, incoming: seq<Upload>): (r: Option<string>)
    ensures incoming == [] ==> r == current
  {
    if incoming == [] then current else incoming[0].filename
  }

  /** An edit replaces the five scalars whatever the home held before (it is a
      full replace, not a patch) and leaves the file references to the uploads. */
  lemma EditIsFullReplace(h1: Home, h2: Home, form: HomeForm)
    ensures var a, b := Assigned(h1, form), Assigned(h2, form);
      a.(photos := None, houseRulePdf := None, photo := None)
      == b.(photos := None, houseRulePdf := None, photo := None)
    ensures Assigned(h1, form).photos == h1.photos && Assigned(h1, form).houseRulePdf == h1.houseRulePdf
  {
  }

  /** `postEditHome` (not routed): one optional new photo. */
  method PostEditHome(db: Db, id: Id, form: HomeForm, file: Option<Upload>) returns (res: Response)
    modifies db`homes, db`files
    ensures id !in old(db.homes) ==>
      && res == Json(404, ErrorBody("Home not found"))
      && db.homes == old(db.homes) && db.files == old(db.files)
    ensures id in old(db.homes) ==>
      var h := old(db.homes)[id];
      var incoming := if file.Some? then [file.value] else [];
      && res == Json(200, MessageBody("Home updated successfully"))
      && db.homes == old(db.homes)[id := Assigned(h, form).(photos := Replaced(h.photos, incoming))]
      && db.files == (if file.Some? then Removed(old(db.files), h.photos) else old(db.files))
  {
    if id !in db.homes {
      return Json(404, ErrorBody("Home not found"));
    }
    var home := Assigned(db.homes[id], form);
    if file.Some? {
      DeleteFile(db, home.photos);
      home := home.(photos := file.value.filename);
    }
    db.homes := db.homes[id := home];
    res := Json(200, MessageBody("Home updated successfully"));
  }

  /** `editHomeApi`: an optional new photo and an optional new rules PDF, each
      replacing the stored file of its kind. */
  method EditHomeApi(db: Db, homeId: Id, form: HomeForm, uploads: seq<Upload>) returns (res: Response)
    modifies db`homes, db`files
    ensures homeId !in old(db.homes) ==>
      && res == Json(404, ErrorBody("Home not found"))
      && db.homes == old(db.homes) && db.files == old(db.files)
    ensures homeId in old(db.homes) ==>
      var h := old(db.homes)[homeId];
      var photo, rules := Accepted(uploads, "photo"), Accepted(uploads, "rulesFile");
      && res == Json(200, MessageBody("Home updated successfully"))
      && db.homes == old(db.homes)[homeId := Assigned(h, form).(
           photos := Replaced(h.photos, photo), houseRulePdf := Replaced(h.houseRulePdf, rules))]
      && db.files == Removed(Removed(old(db.files), if photo != [] then h.photos else None),
                             if rules != [] then h.houseRulePdf else None)
  {
    if homeId !in db.homes {
      return Json(404, ErrorBody("Home not found"));
    }
    var home := Assigned(db.homes[homeId], form);
    var photo, rules := Accepted(uploads, "photo"), Accepted(uploads, "rulesFile");
    if photo != [] {
      DeleteFile(db, home.photos);
      home := home.(photos := photo[0].filename);
    }
    if rules != [] {
      DeleteFile(db, home.houseRulePdf);
      home := home.(houseRulePdf := rules[0].filename);
    }
    db.homes := db.homes[homeId := home];
    res := Json(200, MessageBody("Home updated successfully"));
  }

  /** `$pull: { bookings: homeId, favourites: homeId }` on one user. */
  function Pull(u: User, homeId: Id): User {
    u.(bookings := Lists.Without(u.bookings, homeId), favourites := Lists.Without(u.favourites, homeId))
  }

  /** `User.updateMany({}, { $pull: ... })`. */
  function PullAll(users: map<Id, User>, homeId: Id): (r: map<Id, User>)
    ensures r.Keys == users.Keys
    ensures forall uid :: uid in r ==> r[uid] == Pull(users[uid], homeId)
  {
    map uid | uid in users :: Pull(users[uid], homeId)
  }

  /** After the pull no user lists the home, every other id keeps its place and
      count, the lists stay duplicate-free, and nothing else about a user changes. */
  lemma PullAllProperties(users: map<Id, User>, homeId: Id, uid: Id, other: Id)
    requires uid in users
    ensures var u, v := users[uid], PullAll(users, homeId)[uid];
      && homeId !in v.bookings && homeId !in v.favourites
      && (other != homeId ==>
            multiset(v.bookings)[other] == multiset(u.bookings)[other]
            && multiset(v.favourites)[other] == multiset(u.favourites)[other])
      && (ListsNoDup(u) ==> ListsNoDup(v))
      && v.(bookings := [], favourites := []) == u.(bookings := [], favourites := [])
      && (homeId !in u.bookings && homeId !in u.favourites ==> v == u)
  {
    var u := users[uid];
    Lists.WithoutKeepsOthers(u.bookings, [], homeId, other);
    Lists.WithoutKeepsOthers(u.favourites, [], homeId, other);
  }

  /** `postDeleteHome`. For a known home: its two files and its record go, then its
      id is pulled from every user. For an unknown id the answer is 404 and no file
      or home is touched, but the promise chain still runs the pull. */
  method PostDeleteHome(db: Db, homeId: Id) returns (res: Response)
    requires db.Valid()
    modifies db`homes, db`files, db`users
    ensures db.Valid()
    ensures db.users == PullAll(old(db.users), homeId)
    ensures homeId !in old(db.homes) ==>
      && res == Json(404, ErrorBody("Home not found"))
      && db.homes == old(db.homes) && db.files == old(db.files)
    ensures homeId in old(db.homes) ==>
      var h := old(db.homes)[homeId];
      && res == Json(200, MessageBody("Home deleted successfully"))
      && db.homes == old(db.homes) - {homeId}
      && db.files == Removed(Removed(old(db.files), h.photos), h.houseRulePdf)
  {
    if homeId !in db.homes {
      res := Json(404, ErrorBody("Home not found"));
    } else {
      var h := db.homes[homeId];
      DeleteFile(db, h.photos);
      DeleteFile(db, h.houseRulePdf);
      db.homes := db.homes - {homeId};
      res := Json(200, MessageBody("Home deleted successfully"));
    }
    forall uid | uid in db.users ensures ListsNoDup(PullAll(db.users, homeId)[uid]) {
      PullAllProperties(db.users, homeId, uid, homeId);
    }
    db.users := PullAll(db.users, homeId);
  }

  // ---------------------------------------------------------------------------
  // How the promise chains of postEditHome, editHomeApi and postDeleteHome end

  /** How a request ends: the response the client received, and whether the
      handler left behind a rejected promise that nothing handles. */
  datatype Settled = Settled(sent: Response, unhandledRejection: bool)

  /** One `res.status(...).json(...)`: it sends when nothing has been sent yet, and
      throws ERR_HTTP_HEADERS_SENT otherwise. The result is what has been sent
      afterwards and whether the call threw. */
  function Send(sent: Option<Response>, res: Response): (r: (Option<Response>, bool))
    ensures r.1 <==> sent.Some?
    ensures r.0.Some? && (sent.Some? ==> r.0 == sent)
  {
    if sent.Some? then (sent, true) else (Some(res), false)
  }

  /** The chain as written. `early` is the 404 the first `then` returned with, if
      any; the next `then` still sends `success`; when that throws the `catch`
      sends `failure`; when that throws too, the chain's promise is rejected, and
      the handler does not return it to anyone. */
  function ChainAsWritten(early: Option<Response>, success: Response, failure: Response): Settled {
    var afterThen := Send(early, success);
    if !afterThen.1 then Settled(afterThen.0.value, false)
    else
      var afterCatch := Send(afterThen.0, failure);
      Settled(afterCatch.0.value, afterCatch.1)
  }

  /** As written, the 404 reaches the client and then both later sends throw, so
      every request for an unknown id leaves an unhandled rejection; a found home
      settles cleanly. */
  lemma AsWrittenNotFoundRejects(notFound: Response, success: Response, failure: Response)
    ensures ChainAsWritten(Some(notFound), success, failure) == Settled(notFound, true)
    ensures ChainAsWritten(None, success, failure) == Settled(success, false)
  {
  }

  /** The chain as evidently intended: an early answer ends the request. */
  function ChainCorrected(early: Option<Response>, success: Response): Settled {
    if early.Some? then Settled(early.value, false) else Settled(success, false)
  }

  /** The corrected chain never leaves a rejection behind, and the client receives
      the same response as from the chain as written. */
  lemma CorrectedChainSettles(early: Option<Response>, success: Response, failure: Response)
    ensures !ChainCorrected(early, success).unhandledRejection
    ensures ChainCorrected(early, success).sent == ChainAsWritten(early, success, failure).sent
  {
  }
}
