/** The admin endpoints: dashboard counts, the listings, and the three updates an
    admin makes to a stored document. The updates are stated here as functions
    from the loaded document to the saved one (or to the validation messages that
    block the save); the store methods in `Lifecycle` apply them. */
module AdminController {
  import opened Wrappers
  import opened Documents
  import opened Strings
  import opened Ordering
  import opened Users
  import opened Counting
  import opened BookingSchema
  import opened ContactSchema

  const ContactNotFound := "Contact message not found"

  // ---------------------------------------------------------------------------
  // updateBookingStatus

  /** A status or payment status that is supplied but outside its enum. */
  predicate BadStatus(status: Option<string>) {
    Supplied(status) && !IsStatusLabel(Trim(status.value))
  }

  predicate BadPayment(paymentStatus: Option<string>) {
    Supplied(paymentStatus) && !IsPaymentLabel(paymentStatus.value)
  }

  /** The messages of the save's validation, `status` before `paymentStatus`. */
  function StatusUpdateErrors(status: Option<string>, paymentStatus: Option<string>): (errs: seq<string>)
    ensures errs == [] <==> !BadStatus(status) && !BadPayment(paymentStatus)
    ensures BadStatus(status) ==> EnumMessage(Trim(status.value), "status") in errs
    ensures BadPayment(paymentStatus) ==> EnumMessage(paymentStatus.value, "paymentStatus") in errs
  {
    (if BadStatus(status) then [EnumMessage(Trim(status.value), "status")] else []) +
    (if BadPayment(paymentStatus) then [EnumMessage(paymentStatus.value, "paymentStatus")] else [])
  }

  /** `if (status) booking.status = status`, through the trimming setter. */
  function UpdatedStatus(current: BookingStatus, status: Option<string>): (s: BookingStatus)
    requires !BadStatus(status)
    ensures if Supplied(status) then StatusLabel(s) == Trim(status.value) else s == current
  {
    if Supplied(status) then ParseStatus(Trim(status.value)).value else current
  }

  /** `if (paymentStatus) booking.paymentStatus = paymentStatus`. */
  function UpdatedPayment(current: PaymentStatus, paymentStatus: Option<string>): (p: PaymentStatus)
    requires !BadPayment(paymentStatus)
    ensures if Supplied(paymentStatus) then PaymentLabel(p) == paymentStatus.value else p == current
  {
    if Supplied(paymentStatus) then ParsePayment(paymentStatus.value).value else current
  }

  /** The loaded booking after the three conditional assignments and the save's
      validation. `totalAmount` is written whenever it is given, zero included.
      No rule relates the old status to the new one. The save re-validates every
      path, but only these three can fail: the other paths of a loaded document
      are well-formed, which the stores in `Lifecycle` keep as their invariant. */
  function ApplyStatusUpdate(b: Booking, status: Option<string>, totalAmount: Option<int>, paymentStatus: Option<string>)
    : (r: Result<Booking, seq<string>>)
    // the save fails exactly when a supplied value is outside its enum
    ensures r.Err? <==> BadStatus(status) || BadPayment(paymentStatus)
    ensures r.Err? ==> r.error == StatusUpdateErrors(status, paymentStatus)
    // only the three named fields can change
    ensures r.Ok? ==> r.value.(status := b.status, totalAmount := b.totalAmount, paymentStatus := b.paymentStatus) == b
    ensures r.Ok? ==> if Supplied(status) then StatusLabel(r.value.status) == Trim(status.value)
                      else r.value.status == b.status
    ensures r.Ok? ==> r.value.totalAmount == totalAmount.GetOr(b.totalAmount)
    ensures r.Ok? ==> if Supplied(paymentStatus) then PaymentLabel(r.value.paymentStatus) == paymentStatus.value
                      else r.value.paymentStatus == b.paymentStatus
  {
    var errs := StatusUpdateErrors(status, paymentStatus);
    if errs != [] then Err(errs)
    else
      Ok(b.(status := UpdatedStatus(b.status, status),
            totalAmount := totalAmount.GetOr(b.totalAmount),
            paymentStatus := UpdatedPayment(b.paymentStatus, paymentStatus)))
  }

  /** The three conditional assignments of `updateBookingStatus` on the loaded
      document, once the save's validation has accepted the supplied values. */
  method AssignStatusFields(b: Booking, status: Option<string>, totalAmount: Option<int>, paymentStatus: Option<string>)
    returns (updated: Booking)
    requires !BadStatus(status) && !BadPayment(paymentStatus)
    ensures ApplyStatusUpdate(b, status, totalAmount, paymentStatus) == Ok(updated)
  {
    updated := b;
    if Supplied(status) {
      updated := updated.(status := ParseStatus(Trim(status.value)).value);
    }
    if totalAmount.Some? {
      updated := updated.(totalAmount := totalAmount.value);
    }
    if Supplied(paymentStatus) {
      updated := updated.(paymentStatus := ParsePayment(paymentStatus.value).value);
    }
  }

  /** The stored invariant survives a status update. */
  lemma StatusUpdatePreservesWellFormed(b: Booking, status: Option<string>, totalAmount: Option<int>, paymentStatus: Option<string>)
    requires WellFormed(b)
    ensures var r := ApplyStatusUpdate(b, status, totalAmount, paymentStatus);
            r.Ok? ==> WellFormed(r.value)
  {
    var r := ApplyStatusUpdate(b, status, totalAmount, paymentStatus);
    if r.Ok? {
      assert r.value.name == b.name && r.value.phone == b.phone && r.value.items == b.items;
    }
  }

  /** Any status may follow any status, including a completed or cancelled booking
      going back to `Pending`: the code checks enum membership only. */
  lemma {:induction false} AnyStatusTransitionAccepted(b: Booking, next: BookingStatus)
    ensures ApplyStatusUpdate(b, Some(StatusLabel(next)), None, None) == Ok(b.(status := next))
  {
    var given := Some(StatusLabel(next));
    StatusRoundTrip(next);
    StatusLabelTrimmed(next);
    assert !BadStatus(given) && !BadPayment(None);
    assert StatusUpdateErrors(given, None) == [];
    assert UpdatedStatus(b.status, given) == next;
    assert UpdatedPayment(b.paymentStatus, None) == b.paymentStatus;
  }

  /** An explicit zero amount is written, unlike an empty status or payment status. */
  lemma ZeroAmountApplied(b: Booking)
    ensures ApplyStatusUpdate(b, Some(""), Some(0), Some("")) == Ok(b.(totalAmount := 0))
  {
  }

  /** Repeating a successful update changes nothing more. */
  lemma {:induction false} StatusUpdateIdempotent(b: Booking, status: Option<string>, totalAmount: Option<int>, paymentStatus: Option<string>)
    requires ApplyStatusUpdate(b, status, totalAmount, paymentStatus).Ok?
    ensures var b1 := ApplyStatusUpdate(b, status, totalAmount, paymentStatus).value;
            ApplyStatusUpdate(b1, status, totalAmount, paymentStatus) == Ok(b1)
  {
    var b1 := ApplyStatusUpdate(b, status, totalAmount, paymentStatus).value;
    var b2 := ApplyStatusUpdate(b1, status, totalAmount, paymentStatus);
    assert b2.Ok?;
    if Supplied(status) {
      assert StatusLabel(b2.value.status) == StatusLabel(b1.status);
    }
    if Supplied(paymentStatus) {
      assert PaymentLabel(b2.value.paymentStatus) == PaymentLabel(b1.paymentStatus);
    }
  }

  // ---------------------------------------------------------------------------
  // updateHealthReport

  /** `booking.healthReport = { condition, notes, recommendation }`, then the save's
      validation. A missing `condition` is not defaulted again: the default applies
      when a document is created, not when a nested object is assigned. As with the
      status update, only the assigned path can fail the save, because the rest of
      a loaded document is well-formed. */
  function ReplaceHealthReport(b: Booking, condition: Option<string>, notes: Option<string>, recommendation: Option<string>)
    : (r: Result<Booking, seq<string>>)
    ensures r.Err? <==> condition.Some? && !IsConditionLabel(condition.value)
    ensures r.Err? ==> r.error == [EnumMessage(condition.value, "healthReport.condition")]
    ensures r.Ok? ==> r.value.(healthReport := b.healthReport) == b
    ensures r.Ok? ==> r.value.healthReport.notes == notes && r.value.healthReport.recommendation == recommendation
    ensures r.Ok? ==> if condition.None? then r.value.healthReport.condition.None?
                      else r.value.healthReport.condition.Some? &&
                           ConditionLabel(r.value.healthReport.condition.value) == condition.value
  {
    match condition
    case None => Ok(b.(healthReport := HealthReport(None, notes, recommendation)))
    case Some(c) =>
      match ParseCondition(c)
      case None => Err([EnumMessage(c, "healthReport.condition")])
      case Some(cond) => Ok(b.(healthReport := HealthReport(Some(cond), notes, recommendation)))
  }

  /** The stored invariant survives a health-report update. */
  lemma HealthReportPreservesWellFormed(b: Booking, condition: Option<string>, notes: Option<string>, recommendation: Option<string>)
    requires WellFormed(b)
    ensures var r := ReplaceHealthReport(b, condition, notes, recommendation);
            r.Ok? ==> WellFormed(r.value)
  {
    var r := ReplaceHealthReport(b, condition, notes, recommendation);
    if r.Ok? {
      assert r.value.name == b.name && r.value.phone == b.phone && r.value.items == b.items;
    }
  }

  /** The report written does not depend on the report it replaces. */
  lemma HealthReportWholesale(b1: Booking, b2: Booking, condition: Option<string>, notes: Option<string>, recommendation: Option<string>)
    ensures var r1 := ReplaceHealthReport(b1, condition, notes, recommendation);
            var r2 := ReplaceHealthReport(b2, condition, notes, recommendation);
            r1.Ok? == r2.Ok? && (r1.Ok? ==> r1.value.healthReport == r2.value.healthReport)
  {
  }

  // ---------------------------------------------------------------------------
  // updateContactStatus

  /** `contact.status = status`, assigned whatever it is, then the save's validation:
      an absent status clears the field, an unknown one blocks the save. The other
      paths of a loaded contact are well-formed, so they cannot fail it. */
  function SetContactStatus(c: Contact, status: Option<string>): (r: Result<Contact, seq<string>>)
    ensures r.Err? <==> status.Some? && ParseContactStatus(status.value).None?
    ensures r.Err? ==> r.error == [ContactEnumMessage(status.value)]
    ensures r.Ok? ==> r.value.(status := c.status) == c
    ensures r.Ok? ==> if status.None? then r.value.status.None?
                      else r.value.status.Some? && ContactStatusLabel(r.value.status.value) == status.value
  {
    match status
    case None => Ok(c.(status := None))
    case Some(s) =>
      match ParseContactStatus(s)
      case None => Err([ContactEnumMessage(s)])
      case Some(st) => Ok(c.(status := Some(st)))
  }

  // ---------------------------------------------------------------------------
  // getDashboardStats

  /** The filter `{ status: wanted }`: the query compares the stored string. */
  function HasStatusLabel(wanted: string): Booking -> bool {
    (b: Booking) => StatusLabel(b.status) == wanted
  }

  /** No stored booking has status `Working`: it is not one of the schema's values. */
  lemma {:induction false} WorkingNeverStored(bookings: seq<Booking>)
    ensures Count(bookings, HasStatusLabel("Working")) == 0
  {
    if bookings != [] {
      assert StatusLabel(bookings[0].status) != "Working";
      WorkingNeverStored(bookings[1..]);
    }
  }

  /** Three different labels count disjoint sets of bookings. */
  lemma {:induction false} StatusCountsBounded(bookings: seq<Booking>, l1: string, l2: string, l3: string)
    requires l1 != l2 && l2 != l3 && l1 != l3
    ensures Count(bookings, HasStatusLabel(l1)) + Count(bookings, HasStatusLabel(l2)) + Count(bookings, HasStatusLabel(l3)) <= |bookings|
  {
    if bookings != [] {
      StatusCountsBounded(bookings[1..], l1, l2, l3);
    }
  }

  datatype Stats = Stats(userCount: nat, bookingCount: nat, pending: nat, working: nat, completed: nat)

  /** `getDashboardStats` over the documents of the two collections. */
  function DashboardStats(users: seq<User>, bookings: seq<Booking>): (s: Stats)
    ensures s.userCount == Count(users, HasRole(UserRole))
    ensures s.bookingCount == |bookings|
    ensures s.pending == Count(bookings, HasStatusLabel("Pending")) && s.completed == Count(bookings, HasStatusLabel("Completed"))
    ensures s.working == 0
    ensures s.pending + s.working + s.completed <= s.bookingCount
  {
    WorkingNeverStored(bookings);
    StatusCountsBounded(bookings, "Pending", "Working", "Completed");
    Stats(Count(users, HasRole(UserRole)), |bookings|,
          Count(bookings, HasStatusLabel("Pending")), Count(bookings, HasStatusLabel("Working")), Count(bookings, HasStatusLabel("Completed")))
  }

  // ---------------------------------------------------------------------------
  // getAllBookings, getAllContacts, getAllUsers

  function BookingCreatedAt(b: Booking): Timestamp { b.createdAt }
  function ContactCreatedAt(c: Contact): Timestamp { c.createdAt }
  function UserCreatedAt(u: PublicUser): Timestamp { u.createdAt }

  /** `Booking.find().sort({ createdAt: -1 })`: every booking, newest first. */
  function AllBookings(bookings: seq<Booking>): (r: seq<Booking>)
    ensures NewestFirst(r, BookingCreatedAt)
    ensures multiset(r) == multiset(bookings)
  {
    SortNewestFirst(bookings, BookingCreatedAt)
  }

  /** `Contact.find().sort({ createdAt: -1 })`. */
  function AllContacts(contacts: seq<Contact>): (r: seq<Contact>)
    ensures NewestFirst(r, ContactCreatedAt)
    ensures multiset(r) == multiset(contacts)
  {
    SortNewestFirst(contacts, ContactCreatedAt)
  }

  /** `User.find({ role: 'user' }).select('-password')`, in collection order. */
  function RegularUsers(users: seq<User>): (r: seq<PublicUser>)
    ensures |r| == Count(users, HasRole(UserRole))
    ensures forall p :: p in r ==> p.role == UserRole
    ensures forall p :: p in r <==> exists u :: u in users && u.role == UserRole && WithoutPassword(u) == p
  {
    if users == [] then []
    else
      var rest := RegularUsers(users[1..]);
      assert users == [users[0]] + users[1..];
      if users[0].role == UserRole then [WithoutPassword(users[0])] + rest else rest
  }

  /** `getAllUsers`: the users of role `user`, without passwords, newest first. */
  function AllUsers(users: seq<User>): (r: seq<PublicUser>)
    ensures NewestFirst(r, UserCreatedAt)
    ensures forall p :: p in r <==> exists u :: u in users && u.role == UserRole && WithoutPassword(u) == p
    ensures |r| == DashboardStats(users, []).userCount
  {
    var regular := RegularUsers(users);
    var r := SortNewestFirst(regular, UserCreatedAt);
    assert forall p :: p in r <==> p in regular by {
      forall p ensures p in r <==> p in regular {
        assert p in r <==> p in multiset(r);
        assert p in regular <==> p in multiset(regular);
      }
    }
    r
  }
}
