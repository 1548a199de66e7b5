/** The guest-facing handlers: listing views, and the bookings and favourites of
    the logged-in user. */
module StoreController {
  import opened Js
  import opened Models
  import opened State
  import Lists
  import Text

  // ---------------------------------------------------------------------------
  // Listing views

  /** `home.photo ? "/uploads/" + path.basename(home.photo) : null`. */
  function PhotoUrl(photo: Option<string>): (v: Value)
    ensures v == Null <==> !Present(photo)
    ensures Present(photo) ==>
      v.Str? && |v.s| >= 9 && v.s[..9] == "/uploads/" && '/' !in v.s[9..]
  {
    if Present(photo) then
      var url := "/uploads/" + Text.Basename(photo.value);
      assert url[9..] == Text.Basename(photo.value);
      Str(url)
    else Null
  }

  /** A stored path "<dir>/<name>" and a bare name both give "/uploads/<name>". */
  lemma PhotoUrlOfPath(dir: string, name: string)
    requires name != "" && '/' !in name
    ensures PhotoUrl(Some(dir + "/" + name)) == Str("/uploads/" + name)
    ensures PhotoUrl(Some(name)) == Str("/uploads/" + name)
  {
    Text.BasenameOfPath(dir, name);
  }

  const ListingKeys: set<string> :=
    {"_id", "houseName", "price", "location", "rating", "description", "photoUrl"}

  /** The object each listing handler builds for one home. */
  function ListingView(id: Id, h: Home): (r: map<string, Value>)
    ensures r.Keys == ListingKeys
    ensures r["_id"] == Str(id)
    ensures r["houseName"] == h.houseName && r["price"] == h.price && r["location"] == h.location
    ensures r["rating"] == h.rating && r["description"] == h.description
    ensures r["photoUrl"] == PhotoUrl(h.photo)
  {
    map["_id" := Str(id), "houseName" := h.houseName, "price" := h.price,
        "location" := h.location, "rating" := h.rating, "description" := h.description,
        "photoUrl" := PhotoUrl(h.photo)]
  }

  /** `.populate(...)` on a list of ids: the ids of homes that still exist, in list
      order (ids of deleted homes are dropped). */
  function Populated(ids: seq<Id>, homes: map<Id, Home>): (r: seq<Id>)
    ensures forall i :: 0 <= i < |r| ==> r[i] in ids && r[i] in homes
    ensures forall i :: 0 <= i < |ids| && ids[i] in homes ==> ids[i] in r
  {
    Lists.Filter(ids, id => id in homes)
  }

  /** The listing views of the homes a list of ids resolves to. */
  function Listings(ids: seq<Id>, homes: map<Id, Home>): (r: seq<Value>)
    ensures var p := Populated(ids, homes);
      |r| == |p| && forall i :: 0 <= i < |p| ==> r[i] == Obj(ListingView(p[i], homes[p[i]]))
  {
    var p := Populated(ids, homes);
    seq(|p|, i requires 0 <= i < |p| => Obj(ListingView(p[i], homes[p[i]])))
  }

  /** When every id resolves, the list has one view per id, in the same order. */
  lemma ListingsAllPresent(ids: seq<Id>, homes: map<Id, Home>)
    requires forall i :: 0 <= i < |ids| ==> ids[i] in homes
    ensures |Listings(ids, homes)| == |ids|
    ensures forall i :: 0 <= i < |ids| ==> Listings(ids, homes)[i] == Obj(ListingView(ids[i], homes[ids[i]]))
  {
    Lists.FilterKeepsAll(ids, id => id in homes);
  }

  /** `getIndex`: every home once, in the collection's natural order `order`. */
  method GetIndex(db: Db, order: seq<Id>) returns (res: Response)
    requires Lists.NoDup(order) && forall id :: id in order <==> id in db.homes
    ensures res.Json? && res.status == 200 && res.body.List?
    ensures |res.body.items| == |order| == |db.homes|
    ensures forall id :: id in db.homes ==> Obj(ListingView(id, db.homes[id])) in res.body.items
    ensures forall i :: 0 <= i < |order| ==> res.body.items[i] == Obj(ListingView(order[i], db.homes[order[i]]))
  {
    ListingsAllPresent(order, db.homes);
    NoDupCoverSize(order, db.homes.Keys);
    res := Json(200, List(Listings(order, db.homes)));
    forall id | id in db.homes ensures Obj(ListingView(id, db.homes[id])) in res.body.items {
      var i :| 0 <= i < |order| && order[i] == id;
      assert res.body.items[i] == Obj(ListingView(id, db.homes[id]));
    }
  }

  /** A duplicate-free list that enumerates a set is as long as the set is large. */
  lemma {:induction false} NoDupCoverSize<T>(xs: seq<T>, s: set<T>)
    requires Lists.NoDup(xs) && forall x :: x in xs <==> x in s
    ensures |xs| == |s|
  {
    if xs != [] {
      var rest := xs[1..];
      assert Lists.NoDup(rest) by {
        forall i, j | 0 <= i < j < |rest| ensures rest[i] != rest[j] {
          assert rest[i] == xs[i + 1] && rest[j] == xs[j + 1];
        }
      }
      assert xs[0] !in rest by {
        forall k | 0 <= k < |rest| ensures rest[k] != xs[0] {
          assert rest[k] == xs[k + 1];
        }
      }
      forall x ensures x in rest <==> x in s - {xs[0]} {
        if x in s - {xs[0]} {
          assert x in xs;
          var k :| 0 <= k < |xs| && xs[k] == x;
          assert k != 0;
          assert rest[k - 1] == x;
        }
      }
      NoDupCoverSize(rest, s - {xs[0]});
    }
  }

  // ---------------------------------------------------------------------------
  // The session user's lists

  /** Which list a handler reads or changes. */
  datatype List = Bookings | Favourites

  function ListOf(u: User, which: List): seq<Id> {
    if which == Bookings then u.bookings else u.favourites
  }

  function WithList(u: User, which: List, ids: seq<Id>): (r: User)
    ensures ListOf(r, which) == ids
    ensures r == (if which == Bookings then u.(bookings := ids) else u.(favourites := ids))
  {
    if which == Bookings then u.(bookings := ids) else u.(favourites := ids)
  }

  /** `if (!list.includes(homeId)) list.push(homeId)` on the user's list. */
  function AddTo(u: User, which: List, homeId: Id): (r: User)
    ensures homeId in ListOf(u, which) ==> r == u
    ensures homeId !in ListOf(u, which) ==> ListOf(r, which) == ListOf(u, which) + [homeId]
    ensures r == WithList(u, which, ListOf(r, which))
  {
    if homeId !in ListOf(u, which) then WithList(u, which, ListOf(u, which) + [homeId]) else u
  }

  /** `if (list.includes(homeId)) list = list.filter(x => x != homeId)`. */
  function RemoveFrom(u: User, which: List, homeId: Id): (r: User)
    ensures r == WithList(u, which, Lists.Without(ListOf(u, which), homeId))
  {
    if homeId in ListOf(u, which) then WithList(u, which, Lists.Without(ListOf(u, which), homeId)) else u
  }

  /** Adding is idempotent, never duplicates, and leaves the other list and every
      other field alone. */
  lemma AddToProperties(u: User, which: List, homeId: Id)
    requires ListsNoDup(u)
    ensures ListsNoDup(AddTo(u, which, homeId))
    ensures AddTo(AddTo(u, which, homeId), which, homeId) == AddTo(u, which, homeId)
    ensures ListOf(AddTo(u, which, homeId), which) == Lists.PushAbsent(ListOf(u, which), homeId)
  {
    Lists.PushAbsentKeepsNoDup(ListOf(u, which), homeId);
  }

  /** Removing drops every occurrence and keeps the others, in order and as often as
      they were there; removing an absent id changes nothing. */
  lemma RemoveFromProperties(u: User, which: List, homeId: Id, other: Id)
    requires ListsNoDup(u)
    ensures ListsNoDup(RemoveFrom(u, which, homeId))
    ensures homeId !in ListOf(RemoveFrom(u, which, homeId), which)
    ensures other != homeId ==>
      multiset(ListOf(RemoveFrom(u, which, homeId), which))[other] == multiset(ListOf(u, which))[other]
    ensures homeId !in ListOf(u, which) ==> RemoveFrom(u, which, homeId) == u
  {
    Lists.WithoutKeepsOthers(ListOf(u, which), [], homeId, other);
    if homeId !in ListOf(u, which) {
      assert WithList(u, which, ListOf(u, which)) == u;
    }
  }

  /** `getBookingsList` and `getFavouriteList`. */
  method GetList(db: Db, session: Session, which: List) returns (res: Response)
    ensures session.user.None? ==> res == Json(401, ErrorBody("User not authenticated"))
    ensures session.user.Some? && SessionUserId(db.users, session.user.value).None? ==>
      res == Json(500, ErrorBody(if which == Bookings then "Failed to fetch bookings list"
                                 else "Failed to fetch favourite list"))
    ensures session.user.Some? && SessionUserId(db.users, session.user.value).Some? ==>
      var u := db.users[SessionUserId(db.users, session.user.value).value];
      res == Json(200, List(Listings(ListOf(u, which), db.homes)))
  {
    if session.user.None? {
      return Json(401, ErrorBody("User not authenticated"));
    }
    var uid := SessionUserId(db.users, session.user.value);
    if uid.None? {
      // `user.bookings` on a null user throws; the catch answers 500
      return Json(500, ErrorBody(if which == Bookings then "Failed to fetch bookings list"
                                 else "Failed to fetch favourite list"));
    }
    res := Json(200, List(Listings(ListOf(db.users[uid.value], which), db.homes)));
  }

  /** The shared body of the four list handlers: authenticate, find the user, update
      the one list. */
  method ChangeList(db: Db, session: Session, which: List, add: bool, homeId: Id, done: string, failed: string)
    returns (res: Response)
    requires db.Valid()
    modifies db`users
    ensures db.Valid()
    ensures session.user.None? ==>
      res == Json(401, ErrorBody("User not authenticated")) && db.users == old(db.users)
    ensures session.user.Some? && SessionUserId(old(db.users), session.user.value).None? ==>
      res == Json(500, ErrorBody(failed)) && db.users == old(db.users)
    ensures session.user.Some? && SessionUserId(old(db.users), session.user.value).Some? ==>
      var uid := SessionUserId(old(db.users), session.user.value).value;
      var u := old(db.users)[uid];
      && res == Json(200, MessageBody(done))
      && db.users == old(db.users)[uid := if add then AddTo(u, which, homeId) else RemoveFrom(u, which, homeId)]
  {
    if session.user.None? {
      return Json(401, ErrorBody("User not authenticated"));
    }
    var uid := SessionUserId(db.users, session.user.value);
    if uid.None? {
      return Json(500, ErrorBody(failed));
    }
    var u := db.users[uid.value];
    if add {
      AddToProperties(u, which, homeId);
      db.users := db.users[uid.value := AddTo(u, which, homeId)];
    } else {
      RemoveFromProperties(u, which, homeId, homeId);
      db.users := db.users[uid.value := RemoveFrom(u, which, homeId)];
    }
    res := Json(200, MessageBody(done));
  }

  /** `postAddToBooking`. */
  method PostAddToBooking(db: Db, session: Session, homeId: Id) returns (res: Response)
    requires db.Valid()
    modifies db`users
    ensures db.Valid()
    ensures session.user.None? ==>
      res == Json(401, ErrorBody("User not authenticated")) && db.users == old(db.users)
    ensures session.user.Some? && SessionUserId(old(db.users), session.user.value).None? ==>
      res == Json(500, ErrorBody("Failed to add to booking")) && db.users == old(db.users)
    ensures session.user.Some? && SessionUserId(old(db.users), session.user.value).Some? ==>
      var uid := SessionUserId(old(db.users), session.user.value).value;
      && res == Json(200, MessageBody("Booked successfully"))
      && db.users == old(db.users)[uid := AddTo(old(db.users)[uid], Bookings, homeId)]
  {
    res := ChangeList(db, session, Bookings, true, homeId, "Booked successfully", "Failed to add to booking");
  }

  /** `postAddToFavourite`. */
  method PostAddToFavourite(db: Db, session: Session, homeId: Id) returns (res: Response)
    requires db.Valid()
    modifies db`users
    ensures db.Valid()
    ensures session.user.None? ==>
      res == Json(401, ErrorBody("User not authenticated")) && db.users == old(db.users)
    ensures session.user.Some? && SessionUserId(old(db.users), session.user.value).None? ==>
      res == Json(500, ErrorBody("Failed to add to favourite")) && db.users == old(db.users)
    ensures session.user.Some? && SessionUserId(old(db.users), session.user.value).Some? ==>
      var uid := SessionUserId(old(db.users), session.user.value).value;
      && res == Json(200, MessageBody("Added to favourites"))
      && db.users == old(db.users)[uid := AddTo(old(db.users)[uid], Favourites, homeId)]
  {
    res := ChangeList(db, session, Favourites, true, homeId, "Added to favourites", "Failed to add to favourite");
  }

  /** `postRemoveFromBooking`. */
  method PostRemoveFromBooking(db: Db, session: Session, homeId: Id) returns (res: Response)
    requires db.Valid()
    modifies db`users
    ensures db.Valid()
    ensures session.user.None? ==>
      res == Json(401, ErrorBody("User not authenticated")) && db.users == old(db.users)
    ensures session.user.Some? && SessionUserId(old(db.users), session.user.value).None? ==>
      res == Json(500, ErrorBody("Failed to remove from booking")) && db.users == old(db.users)
    ensures session.user.Some? && SessionUserId(old(db.users), session.user.value).Some? ==>
      var uid := SessionUserId(old(db.users), session.user.value).value;
      && res == Json(200, MessageBody("Booking removed successfully"))
      && db.users == old(db.users)[uid := RemoveFrom(old(db.users)[uid], Bookings, homeId)]
  {
    res := ChangeList(db, session, Bookings, false, homeId,
                      "Booking removed successfully", "Failed to remove from booking");
  }

  /** `postRemoveFromFavourite`. */
  method PostRemoveFromFavourite(db: Db, session: Session, homeId: Id) returns (res: Response)
    requires db.Valid()
    modifies db`users
    ensures db.Valid()
    ensures session.user.None? ==>
      res == Json(401, ErrorBody("User not authenticated")) && db.users == old(db.users)
    ensures session.user.Some? && SessionUserId(old(db.users), session.user.value).None? ==>
      res == Json(500, ErrorBody("Failed to remove from favourite")) && db.users == old(db.users)
    ensures session.user.Some? && SessionUserId(old(db.users), session.user.value).Some? ==>
      var uid := SessionUserId(old(db.users), session.user.value).value;
      && res == Json(200, MessageBody("Favourite removed successfully"))
      && db.users == old(db.users)[uid := RemoveFrom(old(db.users)[uid], Favourites, homeId)]
  {
    res := ChangeList(db, session, Favourites, false, homeId,
                      "Favourite removed successfully", "Failed to remove from favourite");
  }

  /** `getHomeDetails`: 404 for an unknown id; the listing view when the Accept
      header mentions JSON; the rendered detail page otherwise. */
  method GetHomeDetails(db: Db, homeId: Id, accept: Option<string>) returns (res: Response)
    ensures homeId !in db.homes <==> res == Json(404, ErrorBody("Home not found"))
    ensures homeId in db.homes && Present(accept) && Text.Includes(accept.value, "application/json") ==>
      res == Json(200, Obj(ListingView(homeId, db.homes[homeId])))
    ensures homeId in db.homes && !(Present(accept) && Text.Includes(accept.value, "application/json")) ==>
      res == Page("store/home-detail", homeId)
  {
    if homeId !in db.homes {
      return Json(404, ErrorBody("Home not found"));
    }
    if Present(accept) && Text.Includes(accept.value, "application/json") {
      res := Json(200, Obj(ListingView(homeId, db.homes[homeId])));
    } else {
      res := Page("store/home-detail", homeId);
    }
  }
}
