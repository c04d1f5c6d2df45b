/** The booking and contact documents as the controllers change them: load a
    document by id, assign fields on it, then save it, which validates it first. */
module Lifecycle {
  import opened Wrappers
  import opened Documents
  import opened Strings
  import opened BookingSchema
  import opened ContactSchema
  import opened ErrorMiddleware
  import opened BookingController
  import opened AdminController

  ghost predicate AllWellFormed(m: map<ObjectId, Booking>) {
    forall id :: id in m ==> WellFormed(m[id])
  }

  ghost predicate AllContactsWellFormed(m: map<ObjectId, Contact>) {
    forall id :: id in m ==> ContactWellFormed(m[id])
  }

  lemma InsertWellFormed(m: map<ObjectId, Booking>, k: ObjectId, v: Booking)
    requires AllWellFormed(m) && WellFormed(v)
    ensures AllWellFormed(m[k := v])
  {
  }

  lemma InsertContactWellFormed(m: map<ObjectId, Contact>, k: ObjectId, v: Contact)
    requires AllContactsWellFormed(m) && ContactWellFormed(v)
    ensures AllContactsWellFormed(m[k := v])
  {
  }

  class BookingStore {
    /** The bookings collection, keyed by `_id`. */
    var bookings: map<ObjectId, Booking>

    /** Every stored booking satisfies its schema. */
    ghost predicate Valid()
      reads this
    {
      AllWellFormed(bookings)
    }

    constructor (initial: map<ObjectId, Booking>)
      requires AllWellFormed(initial)
      ensures Valid()
      ensures bookings == initial
    {
      bookings := initial;
    }

    /** `createBooking`: the body with the caller bound as `user`, validated and
        inserted under the id the store generates (`newId`). Nothing is inserted when
        validation fails or the id is taken. */
    method CreateBooking(body: RawBooking, identity: Option<ObjectId>, newId: ObjectId, now: Timestamp)
      returns (r: Result<Booking, Fault>)
      requires Valid()
      modifies this
      ensures Valid()
      ensures var v := NewBooking(body, identity, now);
              && (v.Err? ==> r == Err(Invalid(v.error)) && bookings == old(bookings))
              && (v.Ok? && newId in old(bookings) ==> r == Err(DuplicateKey) && bookings == old(bookings))
              && (v.Ok? && newId !in old(bookings) ==> r == Ok(v.value) && bookings == old(bookings)[newId := v.value])
      ensures r.Ok? ==> r.value.user == identity
    {
      var validated := NewBooking(body, identity, now);
      if validated.Err? {
        r := Err(Invalid(validated.error));
        return;
      }
      if newId in bookings {
        r := Err(DuplicateKey);
        return;
      }
      InsertWellFormed(bookings, newId, validated.value);
      bookings := bookings[newId := validated.value];
      r := Ok(validated.value);
    }

    /** `updateBookingStatus`: on the loaded document, `status` and `paymentStatus`
        are assigned when truthy and `totalAmount` when given; the save then checks
        the enums. An absent id is a 404 and changes nothing. */
    method UpdateBookingStatus(id: ObjectId, status: Option<string>, totalAmount: Option<int>, paymentStatus: Option<string>)
      returns (r: Result<Booking, Fault>)
      requires Valid()
      modifies this
      ensures Valid()
      ensures id !in old(bookings) ==> r == Err(NotFound(BookingNotFound)) && bookings == old(bookings)
      ensures id in old(bookings) ==>
                var u := ApplyStatusUpdate(old(bookings)[id], status, totalAmount, paymentStatus);
                && (u.Err? ==> r == Err(Invalid(u.error)) && bookings == old(bookings))
                && (u.Ok? ==> r == Ok(u.value) && bookings == old(bookings)[id := u.value])
    {
      if id !in bookings {
        r := Err(NotFound(BookingNotFound));
        return;
      }
      var booking := bookings[id];
      // the save's enum validation of the values about to be assigned
      var errs := StatusUpdateErrors(status, paymentStatus);
      if errs != [] {
        r := Err(Invalid(errs));
        return;
      }
      var updated := AssignStatusFields(booking, status, totalAmount, paymentStatus);
      StatusUpdatePreservesWellFormed(booking, status, totalAmount, paymentStatus);
      InsertWellFormed(bookings, id, updated);
      bookings := bookings[id := updated];
      r := Ok(updated);
    }

    /** `updateHealthReport`: the whole nested report is replaced by the three body
        fields; the save checks `condition`. An absent id is a 404. */
    method UpdateHealthReport(id: ObjectId, condition: Option<string>, notes: Option<string>, recommendation: Option<string>)
      returns (r: Result<Booking, Fault>)
      requires Valid()
      modifies this
      ensures Valid()
      ensures id !in old(bookings) ==> r == Err(NotFound(BookingNotFound)) && bookings == old(bookings)
      ensures id in old(bookings) ==>
                var u := ReplaceHealthReport(old(bookings)[id], condition, notes, recommendation);
                && (u.Err? ==> r == Err(Invalid(u.error)) && bookings == old(bookings))
                && (u.Ok? ==> r == Ok(u.value) && bookings == old(bookings)[id := u.value])
    {
      if id !in bookings {
        r := Err(NotFound(BookingNotFound));
        return;
      }
      var booking := bookings[id];
      // assign the nested report, then save (which validates)
      var saved := ReplaceHealthReport(booking, condition, notes, recommendation);
      if saved.Err? {
        r := Err(Invalid(saved.error));
        return;
      }
      var updated := saved.value;
      HealthReportPreservesWellFormed(booking, condition, notes, recommendation);
      InsertWellFormed(bookings, id, updated);
      bookings := bookings[id := updated];
      r := Ok(updated);
    }
  }

  class ContactStore {
    /** The contacts collection, keyed by `_id`. */
    var contacts: map<ObjectId, Contact>

    /** Every stored contact message satisfies its schema. */
    ghost predicate Valid()
      reads this
    {
      AllContactsWellFormed(contacts)
    }

    constructor (initial: map<ObjectId, Contact>)
      requires AllContactsWellFormed(initial)
      ensures Valid()
      ensures contacts == initial
    {
      contacts := initial;
    }

    /** `updateContactStatus`: the body's `status` is assigned as it is, absent or
        not; the save checks the enum. An absent id is a 404. */
    method UpdateContactStatus(id: ObjectId, status: Option<string>) returns (r: Result<Contact, Fault>)
      requires Valid()
      modifies this
      ensures Valid()
      ensures id !in old(contacts) ==> r == Err(NotFound(ContactNotFound)) && contacts == old(contacts)
      ensures id in old(contacts) ==>
                var u := SetContactStatus(old(contacts)[id], status);
                && (u.Err? ==> r == Err(Invalid(u.error)) && contacts == old(contacts))
                && (u.Ok? ==> r == Ok(u.value) && contacts == old(contacts)[id := u.value])
    {
      if id !in contacts {
        r := Err(NotFound(ContactNotFound));
        return;
      }
      var contact := contacts[id];
      var parsed: Option<ContactStatus> := None;
      if status.Some? {
        parsed := ParseContactStatus(status.value);
        if parsed.None? {
          r := Err(Invalid([ContactEnumMessage(status.value)]));
          return;
        }
      }
      var updated := contact.(status := parsed);
      InsertContactWellFormed(contacts, id, updated);
      contacts := contacts[id := updated];
      r := Ok(updated);
    }
  }
}
