/** The public booking endpoints: submitting a booking, listing the caller's own
    bookings, and looking one booking up by id. */
module BookingController {
  import opened Wrappers
  import opened Documents
  import opened BookingSchema
  import opened ErrorMiddleware

  const BookingNotFound := "Booking not found"

  /** `{ ...req.body, user: req.user ? req.user._id : null }`: the body with its
      `user` replaced by the caller's identity, or by nothing for a guest. */
  function WithUser(body: RawBooking, identity: Option<ObjectId>): (data: RawBooking)
    ensures data.user == identity
    ensures data.(user := body.user) == body
  {
    body.(user := identity)
  }

  /** The document `createBooking` asks the store to save. */
  function NewBooking(body: RawBooking, identity: Option<ObjectId>, now: Timestamp): (r: Result<Booking, seq<string>>)
    ensures r.Ok? ==> r.value.user == identity && WellFormed(r.value)
    ensures r.Ok? <==> Acceptable(body.(user := identity))
  {
    ValidateBooking(WithUser(body, identity), now)
  }

  /** A `user` given in the body has no effect on what is saved: two bodies that
      differ only there produce the same outcome. */
  lemma BodyUserIgnored(body1: RawBooking, body2: RawBooking, identity: Option<ObjectId>, now: Timestamp)
    requires body1.(user := None) == body2.(user := None)
    ensures NewBooking(body1, identity, now) == NewBooking(body2, identity, now)
  {
    assert WithUser(body1, identity) == WithUser(body2, identity) by {
      assert WithUser(body1, identity) == body1.(user := None).(user := identity);
      assert WithUser(body2, identity) == body2.(user := None).(user := identity);
    }
  }

  /** `Booking.find({ user: uid })`, in collection order. */
  function UserBookings(all: seq<Booking>, uid: ObjectId): (r: seq<Booking>)
    ensures |r| <= |all|
    ensures forall i :: 0 <= i < |r| ==> r[i].user == Some(uid)
    ensures forall b :: b in r <==> b in all && b.user == Some(uid)
    ensures forall b :: multiset(r)[b] == if b.user == Some(uid) then multiset(all)[b] else 0
  {
    if all == [] then []
    else
      var rest := UserBookings(all[1..], uid);
      assert all == [all[0]] + all[1..];
      assert multiset(all) == multiset{all[0]} + multiset(all[1..]);
      if all[0].user == Some(uid) then
        assert multiset([all[0]] + rest) == multiset{all[0]} + multiset(rest);
        [all[0]] + rest
      else
        rest
  }

  /** The owner filter keeps the collection's order: matching bookings appended to
      the collection are appended to the answer. */
  lemma {:induction false} UserBookingsAppend(all: seq<Booking>, b: Booking, uid: ObjectId)
    ensures UserBookings(all + [b], uid) == UserBookings(all, uid) + (if b.user == Some(uid) then [b] else [])
  {
    var tail := if b.user == Some(uid) then [b] else [];
    if all == [] {
      assert all + [b] == [b] && [b][1..] == [];
    } else {
      var longer := all + [b];
      var head := if all[0].user == Some(uid) then [all[0]] else [];
      assert longer[0] == all[0] && longer[1..] == all[1..] + [b];
      UserBookingsAppend(all[1..], b, uid);
      assert UserBookings(longer, uid) == head + (UserBookings(all[1..], uid) + tail);
      assert UserBookings(all, uid) == head + UserBookings(all[1..], uid);
      ConcatAssociative(head, UserBookings(all[1..], uid), tail);
    }
  }

  lemma ConcatAssociative(a: seq<Booking>, b: seq<Booking>, c: seq<Booking>)
    ensures a + (b + c) == (a + b) + c
  {
  }

  /** `getBookingById`: the stored record, or a 404 "Booking not found". */
  function FindBooking(bookings: map<ObjectId, Booking>, id: ObjectId): (r: Result<Booking, Fault>)
    ensures r.Ok? <==> id in bookings
    ensures r.Ok? ==> r.value == bookings[id]
    ensures r.Err? ==> r.error == NotFound(BookingNotFound)
  {
    if id in bookings then Ok(bookings[id]) else Err(NotFound(BookingNotFound))
  }
}
