/** The client's shared state: the signed-in user, the booking and favourite lists
    it keeps, the theme and the password-visibility switch. */
module AppContext {
  import opened Js
  import Lists

  /** Reading `.id` of null or undefined throws a TypeError; of any other value it
      gives the field, or undefined. */
  predicate Nullish(v: Value) {
    v.Null? || v.Undefined?
  }

  /** The items `filter(x => x.id !== id)` keeps, for a list with no nullish item. */
  function KeepOthers(items: seq<Value>, id: Value): (r: seq<Value>)
    ensures |r| <= |items|
    ensures forall i :: 0 <= i < |r| ==> r[i] in items && Field(r[i], "id") != id
    ensures forall i :: 0 <= i < |items| && Field(items[i], "id") != id ==> items[i] in r
  {
    Lists.Filter(items, x => Field(x, "id") != id)
  }

  /** `items.filter(x => x.id !== id)`: a TypeError as soon as the callback meets a
      null or undefined item, otherwise the items whose `id` differs. */
  function WithoutId(items: seq<Value>, id: Value): (r: Result<seq<Value>>)
    ensures r.TypeError? <==> exists i :: 0 <= i < |items| && Nullish(items[i])
    ensures r.Ok? ==> r.value == KeepOthers(items, id)
  {
    if exists i :: 0 <= i < |items| && Nullish(items[i]) then TypeError else Ok(KeepOthers(items, id))
  }

  /** Removing by id keeps the other items in order and as often as they
      occurred. */
  lemma WithoutIdProperties(xs: seq<Value>, ys: seq<Value>, id: Value, item: Value)
    ensures KeepOthers(xs + ys, id) == KeepOthers(xs, id) + KeepOthers(ys, id)
    ensures multiset(KeepOthers(xs, id))[item] == if Field(item, "id") != id then multiset(xs)[item] else 0
  {
    Lists.FilterAppend(xs, ys, x => Field(x, "id") != id);
    Lists.FilterCount(xs, x => Field(x, "id") != id, item);
  }

  /** A removal that succeeds leaves no nullish item, so a second one succeeds too
      and changes nothing. */
  lemma WithoutIdTwice(xs: seq<Value>, id: Value)
    requires WithoutId(xs, id).Ok?
    ensures WithoutId(WithoutId(xs, id).value, id) == WithoutId(xs, id)
  {
    var r := KeepOthers(xs, id);
    forall i | 0 <= i < |r| ensures !Nullish(r[i]) && Field(r[i], "id") != id {
      var j :| 0 <= j < |xs| && xs[j] == r[i];
    }
    Lists.FilterKeepsAll(r, x => Field(x, "id") != id);
  }

  /** `AppProvider`'s state. */
  class AppProvider {
    var user: Value
    var bookings: seq<Value>
    var favourites: seq<Value>
    var isDarkMode: bool
    var showPassword: bool

    constructor ()
      ensures user == Null && bookings == [] && favourites == [] && !isDarkMode && !showPassword
    {
      user := Null;
      bookings := [];
      favourites := [];
      isDarkMode := false;
      showPassword := false;
    }

    method ToggleTheme()
      modifies this`isDarkMode
      ensures isDarkMode == !old(isDarkMode)
    {
      isDarkMode := !isDarkMode;
    }

    method ToggleShowPassword()
      modifies this`showPassword
      ensures showPassword == !old(showPassword)
    {
      showPassword := !showPassword;
    }

    /** Appends, without looking for an equal item. */
    method AddBooking(booking: Value)
      modifies this`bookings
      ensures bookings == old(bookings) + [booking] && |bookings| == |old(bookings)| + 1
    {
      bookings := bookings + [booking];
    }

    /** The update throws on a null or undefined item and the list stays as it
        was; otherwise the matching items are dropped. */
    method RemoveBooking(bookingId: Value) returns (r: Result<seq<Value>>)
      modifies this`bookings
      ensures r == WithoutId(old(bookings), bookingId)
      ensures r.TypeError? ==> bookings == old(bookings)
      ensures r.Ok? ==> bookings == r.value
    {
      r := WithoutId(bookings, bookingId);
      if r.Ok? {
        bookings := r.value;
      }
    }

    method AddFavourite(item: Value)
      modifies this`favourites
      ensures favourites == old(favourites) + [item] && |favourites| == |old(favourites)| + 1
    {
      favourites := favourites + [item];
    }

    /** The update throws on a null or undefined item and the list stays as it
        was; otherwise the matching items are dropped. */
    method RemoveFavourite(itemId: Value) returns (r: Result<seq<Value>>)
      modifies this`favourites
      ensures r == WithoutId(old(favourites), itemId)
      ensures r.TypeError? ==> favourites == old(favourites)
      ensures r.Ok? ==> favourites == r.value
    {
      r := WithoutId(favourites, itemId);
      if r.Ok? {
        favourites := r.value;
      }
    }

    /** Two toggles of either switch restore it, and touch nothing else. */
    method ToggleTwice()
      modifies this`isDarkMode, this`showPassword
      ensures isDarkMode == old(isDarkMode) && showPassword == old(showPassword)
    {
      ToggleTheme();
      ToggleTheme();
      ToggleShowPassword();
      ToggleShowPassword();
    }
  }
}
