/** `BookingService`: creating, reading and cancelling bookings over the
    `bookings` collection. The guest is looked up by email in the `users`
    collection and the nightly price comes from the property service. Dates
    are day numbers; the inserted document's generated id, the creation time
    and the fresh property id used while rebuilding the property are
    parameters. */
module BookingService {
  import opened Common
  import opened Documents
  import opened Properties
  import PS = PropertyService

  const GuestNotFound := "Guest not found."
  const PropertyNotFound := "Property not found."
  const BookingCreated := "Booking created successfully."
  const BookingFound := "Booking found."
  const BookingNotFound := "Booking not found."
  const BookingCancelled := "Booking cancelled successfully."
  const NotCancelled := "Booking not found or could not be cancelled."

  /** `get_user_id_by_email`: `str` of the `_id` of the first user with that
      email, `None` when there is no such user. */
  function UserIdByEmail(users: seq<Doc>, email: string): (r: Outcome<Option<string>>)
    ensures FindOne(users, Field("email", Str(email))).None? ==> r == Returned(None)
    ensures FindOne(users, Field("email", Str(email))).Some? ==>
      var u := users[FindOne(users, Field("email", Str(email))).value];
      && ("_id" in u ==> r == Returned(Some(Show(u["_id"]))))
      && ("_id" !in u ==> r == Raised("KeyError"))
  {
    match FindOne(users, Field("email", Str(email)))
    case None => Returned(None)
    case Some(i) => if "_id" in users[i] then Returned(Some(Show(users[i]["_id"]))) else Raised("KeyError")
  }

  /** Every key of a stored booking. */
  const BookingKeys: set<string> := {"guest_id", "property_id", "check_in", "check_out", "num_days", "price_per_night",
                                     "total_price", "guests", "special_requests", "status", "created_at", "_id", "booking_id"}

  /** The document `create_booking` inserts, before its id is written back. */
  function BookingDoc(guestId: string, propertyId: string, checkIn: int, checkOut: int, numDays: int,
                      price: Value, total: Value, guests: Value, specialRequests: Value, now: int): (d: Doc)
    ensures d.Keys + {"_id", "booking_id"} == BookingKeys
    ensures d["guest_id"] == Str(guestId) && d["property_id"] == Str(propertyId) && d["num_days"] == Num(numDays)
    ensures d["price_per_night"] == price && d["total_price"] == total && d["status"] == Str("confirmed")
  {
    map[
      "guest_id" := Str(guestId), "property_id" := Str(propertyId),
      "check_in" := Num(checkIn), "check_out" := Num(checkOut), "num_days" := Num(numDays),
      "price_per_night" := price, "total_price" := total, "guests" := guests,
      "special_requests" := specialRequests, "status" := Str("confirmed"), "created_at" := Num(now)]
  }

  /** The guest lookup succeeded with a non-empty id. */
  predicate GuestKnown(users: seq<Doc>, email: string)
  {
    var g := UserIdByEmail(users, email);
    g.Returned? && g.value.Some? && g.value.value != ""
  }

  /** A booking document once its generated id is written both as `_id`
      and as `booking_id`; every other field is kept. */
  function Stamped(data: Doc, newId: string): (b: Doc)
    ensures b.Keys == data.Keys + {"_id", "booking_id"}
    ensures Get(b, "_id", Null) == Str(newId) && Get(b, "booking_id", Null) == Str(newId)
    ensures forall k :: k in data && k != "_id" && k != "booking_id" ==> Get(b, k, Null) == data[k]
  {
    data["_id" := Str(newId)]["booking_id" := Str(newId)]
  }

  /** `insert_one` of a booking under the generated id `newId` (a taken id
      raises `DuplicateKeyError`), followed by the `update_one` that writes
      the same id back as `booking_id`; the first document with that `_id`
      is the one just inserted. */
  function InsertBooking(bookings: seq<Doc>, data: Doc, newId: string): (r: (Outcome<(Option<string>, string)>, seq<Doc>))
    ensures FindOne(bookings, Field("_id", Str(newId))).Some? ==> r == (Raised("DuplicateKeyError"), bookings)
    ensures FindOne(bookings, Field("_id", Str(newId))).None? ==>
      && r.0 == Returned((Some(newId), BookingCreated))
      && |r.1| == |bookings| + 1 && r.1[..|bookings|] == bookings
      && r.1[|bookings|] == Stamped(data, newId)
  {
    if FindOne(bookings, Field("_id", Str(newId))).Some? then (Raised("DuplicateKeyError"), bookings)
    else
      var stored := bookings + [Stamped(data, newId)];
      assert stored[..|bookings|] == bookings;
      (Returned((Some(newId), BookingCreated)), stored)
  }

  /** The part of `create_booking` after the guest id `guestId` is known:
      `found` is what `get_property` gave. A missing property reports
      `"Property not found."`; otherwise the price per night is the
      property's `price`, the total is that price times the night count
      (`*` on whatever value the price holds), and the booking is inserted as
      `"confirmed"` under the generated id `newId`, which is then written
      back as its `booking_id`. */
  function BookProperty(guestId: string, found: Outcome<(Option<Property>, string)>, bookings: seq<Doc>,
                        propertyId: string, checkIn: int, checkOut: int, guests: Value,
                        specialRequests: Value, now: int, newId: string)
    : (r: (Outcome<(Option<string>, string)>, seq<Doc>))
    ensures found.Raised? ==> r == (Raised(found.error), bookings)
    ensures found.Returned? && found.value.0.None? ==> r == (Returned((None, PropertyNotFound)), bookings)
    ensures r.0.Returned? && r.0.value.0.Some? <==> r.1 != bookings
    ensures r.1 != bookings ==>
      && r.0.value == (Some(newId), BookingCreated)
      && found.Returned? && found.value.0.Some?
      && FindOne(bookings, Field("_id", Str(newId))).None?
      && |r.1| == |bookings| + 1 && r.1[..|bookings|] == bookings
  {
    match found
    case Raised(e) => (Raised(e), bookings)
    case Returned(f) =>
      if f.0.None? then (Returned((None, PropertyNotFound)), bookings)
      else
        var price := NightlyPrice(f.0.value);
        match Mul(price, checkOut - checkIn)
        case Raised(e) => (Raised(e), bookings)
        case Returned(total) =>
          var data := BookingDoc(guestId, propertyId, checkIn, checkOut, checkOut - checkIn, price, total, guests, specialRequests, now);
          InsertBooking(bookings, data, newId)
  }

  /** For a found property whose price can be multiplied by the night
      count, under an unused id, the booking is created: exactly the booking
      document of the guest, the property, the day difference, the
      property's price and that price times the day difference, stamped
      with the generated id, is appended. */
  lemma BookPropertyStores(guestId: string, p: Property, msg: string, bookings: seq<Doc>,
                           propertyId: string, checkIn: int, checkOut: int, guests: Value,
                           specialRequests: Value, now: int, newId: string)
    requires Mul(p.price, checkOut - checkIn).Returned?
    requires FindOne(bookings, Field("_id", Str(newId))).None?
    ensures var r := BookProperty(guestId, Returned((Some(p), msg)), bookings, propertyId, checkIn, checkOut, guests, specialRequests, now, newId);
      && r.0 == Returned((Some(newId), BookingCreated))
      && r.1 == bookings + [Stamped(BookingDoc(guestId, propertyId, checkIn, checkOut, checkOut - checkIn, p.price,
                                               Mul(p.price, checkOut - checkIn).value, guests, specialRequests, now), newId)]
  {
    var total := Mul(NightlyPrice(p), checkOut - checkIn);
    var data := BookingDoc(guestId, propertyId, checkIn, checkOut, checkOut - checkIn, p.price, total.value, guests, specialRequests, now);
    assert BookProperty(guestId, Returned((Some(p), msg)), bookings, propertyId, checkIn, checkOut, guests, specialRequests, now, newId)
        == InsertBooking(bookings, data, newId);
  }

  /** The fields of a stamped booking document. */
  lemma StampedBookingFields(guestId: string, propertyId: string, checkIn: int, checkOut: int, price: Value,
                             total: Value, guests: Value, specialRequests: Value, now: int, newId: string)
    ensures var b := Stamped(BookingDoc(guestId, propertyId, checkIn, checkOut, checkOut - checkIn, price, total,
                                        guests, specialRequests, now), newId);
      && b.Keys == BookingKeys
      && Get(b, "guest_id", Null) == Str(guestId)
      && Get(b, "property_id", Null) == Str(propertyId)
      && Get(b, "num_days", Null) == Num(checkOut - checkIn)
      && Get(b, "price_per_night", Null) == price
      && Get(b, "total_price", Null) == total
      && Get(b, "status", Null) == Str("confirmed")
  {
    var d := BookingDoc(guestId, propertyId, checkIn, checkOut, checkOut - checkIn, price, total, guests, specialRequests, now);
    assert "guest_id" in d && "property_id" in d && "num_days" in d;
    assert "price_per_night" in d && "total_price" in d && "status" in d;
  }

  /** What a created booking holds: the guest's id, the property, the night
      count as the day difference, the property's own price, the total as
      that price times the night count, status `"confirmed"`, and the
      generated id both as `_id` and as `booking_id`. */
  lemma CreatedBookingContents(guestId: string, p: Property, msg: string, bookings: seq<Doc>,
                               propertyId: string, checkIn: int, checkOut: int, guests: Value,
                               specialRequests: Value, now: int, newId: string)
    requires Mul(p.price, checkOut - checkIn).Returned?
    requires FindOne(bookings, Field("_id", Str(newId))).None?
    ensures var r := BookProperty(guestId, Returned((Some(p), msg)), bookings, propertyId, checkIn, checkOut, guests, specialRequests, now, newId);
      && |r.1| == |bookings| + 1
      && var b := r.1[|bookings|];
      && b.Keys == BookingKeys
      && Get(b, "guest_id", Null) == Str(guestId)
      && Get(b, "property_id", Null) == Str(propertyId)
      && Get(b, "num_days", Null) == Num(checkOut - checkIn)
      && Get(b, "price_per_night", Null) == p.price
      && Mul(p.price, checkOut - checkIn) == Returned(Get(b, "total_price", Null))
      && Get(b, "status", Null) == Str("confirmed")
      && Get(b, "booking_id", Null) == Str(newId) && Get(b, "_id", Null) == Str(newId)
  {
    BookPropertyStores(guestId, p, msg, bookings, propertyId, checkIn, checkOut, guests, specialRequests, now, newId);
    StampedBookingFields(guestId, propertyId, checkIn, checkOut, p.price, Mul(p.price, checkOut - checkIn).value,
                         guests, specialRequests, now, newId);
  }

  /** `create_booking`: the guest is resolved by email first, and an unknown
      guest is reported before the property is even looked up; only then
      does the property lookup and insertion of `BookProperty` run. Nothing
      checks that check-out comes after check-in. */
  function CreateBooking(users: seq<Doc>, props: seq<Doc>, bookings: seq<Doc>, guestEmail: string,
                         propertyId: string, checkIn: int, checkOut: int, guests: Value,
                         specialRequests: Value, now: int, newId: string, freshId: string)
    : (r: (Outcome<(Option<string>, string)>, seq<Doc>))
    ensures UserIdByEmail(users, guestEmail) == Returned(None) ==> r == (Returned((None, GuestNotFound)), bookings)
    ensures !GuestKnown(users, guestEmail) ==> r.1 == bookings && r.0.Returned? == UserIdByEmail(users, guestEmail).Returned?
    ensures GuestKnown(users, guestEmail) ==>
              r == BookProperty(UserIdByEmail(users, guestEmail).value.value, PS.GetProperty(props, propertyId, freshId),
                                bookings, propertyId, checkIn, checkOut, guests, specialRequests, now, newId)
  {
    match UserIdByEmail(users, guestEmail)
    case Raised(e) => (Raised(e), bookings)
    case Returned(g) =>
      if g.None? || g.value == "" then (Returned((None, GuestNotFound)), bookings)
      else BookProperty(g.value, PS.GetProperty(props, propertyId, freshId), bookings, propertyId, checkIn, checkOut,
                        guests, specialRequests, now, newId)
  }

  /** A booking whose property has a numeric price is created whatever the
      dates: a check-out on or before the check-in gives a non-positive
      night count and total. */
  lemma NoStayLengthCheck(guestId: string, p: Property, msg: string, bookings: seq<Doc>,
                          propertyId: string, checkIn: int, checkOut: int, guests: Value,
                          specialRequests: Value, now: int, newId: string)
    requires p.price.Num?
    requires FindOne(bookings, Field("_id", Str(newId))).None?
    requires checkOut <= checkIn
    ensures var r := BookProperty(guestId, Returned((Some(p), msg)), bookings, propertyId, checkIn, checkOut, guests, specialRequests, now, newId);
      && r.0 == Returned((Some(newId), BookingCreated))
      && |r.1| == |bookings| + 1
      && Get(r.1[|bookings|], "num_days", Null) == Num(checkOut - checkIn) && checkOut - checkIn <= 0
      && Get(r.1[|bookings|], "total_price", Null) == Num(p.price.n * (checkOut - checkIn))
  {
    BookPropertyStores(guestId, p, msg, bookings, propertyId, checkIn, checkOut, guests, specialRequests, now, newId);
    CreatedBookingContents(guestId, p, msg, bookings, propertyId, checkIn, checkOut, guests, specialRequests, now, newId);
  }

  /** `property.get_details().get("price", 0)`: the `0` default never
      applies, since a rendered property always carries `"price"`. */
  function NightlyPrice(p: Property): (v: Value)
    ensures v == p.price
  {
    Get(GetDetails(p), "price", Num(0))
  }

  /** `get_booking`: the first booking whose `booking_id` is `bid`. */
  function GetBooking(bookings: seq<Doc>, bid: string): (r: (Option<Doc>, string))
    ensures r.0.None? <==> forall j :: 0 <= j < |bookings| ==> Get(bookings[j], "booking_id", Null) != Str(bid)
    ensures r.0.None? ==> r.1 == BookingNotFound
    ensures r.0.Some? ==> r.1 == BookingFound && r.0.value in bookings && Get(r.0.value, "booking_id", Null) == Str(bid)
    ensures r.0.Some? ==> exists i :: 0 <= i < |bookings| && bookings[i] == r.0.value
                            && forall j :: 0 <= j < i ==> Get(bookings[j], "booking_id", Null) != Str(bid)
  {
    match FindOne(bookings, Field("booking_id", Str(bid)))
    case None => (None, BookingNotFound)
    case Some(i) => (Some(bookings[i]), BookingFound)
  }

  /** `get_guest_bookings`: exactly the bookings of that guest, each as
      often as it is stored. */
  function GetGuestBookings(bookings: seq<Doc>, guestId: string): (r: seq<Doc>)
    ensures forall i :: 0 <= i < |r| ==> r[i] in bookings && Get(r[i], "guest_id", Null) == Str(guestId)
    ensures forall j :: 0 <= j < |bookings| && Get(bookings[j], "guest_id", Null) == Str(guestId) ==> bookings[j] in r
    ensures |r| == Count(bookings, (d: Doc) => Matches(d, Field("guest_id", Str(guestId))))
  {
    FindAll(bookings, Field("guest_id", Str(guestId)))
  }

  /** `get_property_bookings`: exactly the bookings of that property, each
      as often as it is stored. */
  function GetPropertyBookings(bookings: seq<Doc>, propertyId: string): (r: seq<Doc>)
    ensures forall i :: 0 <= i < |r| ==> r[i] in bookings && Get(r[i], "property_id", Null) == Str(propertyId)
    ensures forall j :: 0 <= j < |bookings| && Get(bookings[j], "property_id", Null) == Str(propertyId) ==> bookings[j] in r
    ensures |r| == Count(bookings, (d: Doc) => Matches(d, Field("property_id", Str(propertyId))))
  {
    FindAll(bookings, Field("property_id", Str(propertyId)))
  }

  /** Both lists come back in storage order: a booking stored last is
      listed last, and only in the lists it belongs to. */
  lemma BookingListsInStorageOrder(bookings: seq<Doc>, d: Doc, guestId: string, propertyId: string)
    ensures GetGuestBookings([], guestId) == [] && GetPropertyBookings([], propertyId) == []
    ensures GetGuestBookings(bookings + [d], guestId)
              == GetGuestBookings(bookings, guestId) + (if Get(d, "guest_id", Null) == Str(guestId) then [d] else [])
    ensures GetPropertyBookings(bookings + [d], propertyId)
              == GetPropertyBookings(bookings, propertyId) + (if Get(d, "property_id", Null) == Str(propertyId) then [d] else [])
  {
    FilterConcat(bookings, [d], (x: Doc) => Matches(x, Field("guest_id", Str(guestId))));
    FilterConcat(bookings, [d], (x: Doc) => Matches(x, Field("property_id", Str(propertyId))));
  }

  /** A booking just created is found by its id and is listed among both its
      guest's and its property's bookings. */
  lemma CreatedBookingListed(guestId: string, p: Property, msg: string, bookings: seq<Doc>,
                             propertyId: string, checkIn: int, checkOut: int, guests: Value,
                             specialRequests: Value, now: int, newId: string)
    requires Mul(p.price, checkOut - checkIn).Returned?
    requires FindOne(bookings, Field("_id", Str(newId))).None?
    ensures var r := BookProperty(guestId, Returned((Some(p), msg)), bookings, propertyId, checkIn, checkOut, guests, specialRequests, now, newId);
      && |r.1| == |bookings| + 1
      && var b := r.1[|bookings|];
      && b in GetGuestBookings(r.1, guestId)
      && b in GetPropertyBookings(r.1, propertyId)
      && GetBooking(r.1, newId).0.Some?
  {
    CreatedBookingContents(guestId, p, msg, bookings, propertyId, checkIn, checkOut, guests, specialRequests, now, newId);
  }

  /** `cancel_booking`: `$set`s status `"cancelled"` on the first booking
      with that id; true only if that changed the stored document. */
  function CancelBooking(bookings: seq<Doc>, bid: string): (r: ((bool, string), seq<Doc>))
    ensures r.0.0 <==> exists i :: 0 <= i < |bookings| && Get(bookings[i], "booking_id", Null) == Str(bid)
                                   && Get(bookings[i], "status", Null) != Str("cancelled")
                                   && forall j :: 0 <= j < i ==> Get(bookings[j], "booking_id", Null) != Str(bid)
    ensures r.0 == (if r.0.0 then (true, BookingCancelled) else (false, NotCancelled))
    ensures !r.0.0 ==> r.1 == bookings
    ensures r.0.0 ==> var i := FindOne(bookings, Field("booking_id", Str(bid))).value;
      && |r.1| == |bookings|
      && r.1[i] == bookings[i]["status" := Str("cancelled")]
      && forall j :: 0 <= j < |bookings| && j != i ==> r.1[j] == bookings[j]
  {
    match FindOne(bookings, Field("booking_id", Str(bid)))
    case None => ((false, NotCancelled), bookings)
    case Some(i) =>
      var d := bookings[i];
      var d' := d["status" := Str("cancelled")];
      if Get(d, "status", Null) == Str("cancelled") then
        assert d' == d;
        ((false, NotCancelled), bookings)
      else
        ((true, BookingCancelled), bookings[i := d'])
  }

  /** Cancelling is idempotent: once a booking is cancelled, cancelling it
      again reports false and writes nothing. */
  lemma CancelTwice(bookings: seq<Doc>, bid: string)
    ensures var once := CancelBooking(bookings, bid).1;
      CancelBooking(once, bid) == ((false, NotCancelled), once)
  {
    var r := CancelBooking(bookings, bid);
    if r.0.0 {
      var i := FindOne(bookings, Field("booking_id", Str(bid))).value;
      assert Get(r.1[i], "booking_id", Null) == Str(bid);
      assert forall j :: 0 <= j < i ==> r.1[j] == bookings[j];
      assert FindOne(r.1, Field("booking_id", Str(bid))) == Some(i);
    }
  }
}
