/** The Booking schema: the record a booking document holds once the document
    store has cast, defaulted and validated a submitted body. */
module BookingSchema {
  import opened Wrappers
  import opened Documents
  import opened Strings

  // ---------------------------------------------------------------------------
  // Enumerations and their labels

  /** The three pickup slots a booking may ask for. */
  datatype PreferredTime = Morning | Afternoon | Evening

  function PreferredTimeLabel(p: PreferredTime): string {
    match p
    case Morning => "Morning (9 AM - 12 PM)"
    case Afternoon => "Afternoon (12 PM - 4 PM)"
    case Evening => "Evening (4 PM - 8 PM)"
  }

  /** Enum membership of a submitted slot string. */
  function ParsePreferredTime(s: string): (r: Option<PreferredTime>)
    ensures r.Some? ==> PreferredTimeLabel(r.value) == s
    ensures r.None? ==> forall p :: PreferredTimeLabel(p) != s
  {
    if s == "Morning (9 AM - 12 PM)" then Some(Morning)
    else if s == "Afternoon (12 PM - 4 PM)" then Some(Afternoon)
    else if s == "Evening (4 PM - 8 PM)" then Some(Evening)
    else None
  }

  datatype BookingStatus = Pending | Confirmed | Completed | Cancelled

  function StatusLabel(s: BookingStatus): string {
    match s
    case Pending => "Pending"
    case Confirmed => "Confirmed"
    case Completed => "Completed"
    case Cancelled => "Cancelled"
  }

  function ParseStatus(s: string): (r: Option<BookingStatus>)
    ensures r.Some? ==> StatusLabel(r.value) == s
    ensures r.None? ==> forall t :: StatusLabel(t) != s
  {
    if s == "Pending" then Some(Pending)
    else if s == "Confirmed" then Some(Confirmed)
    else if s == "Completed" then Some(Completed)
    else if s == "Cancelled" then Some(Cancelled)
    else None
  }

  datatype PaymentStatus = PaymentPending | PaymentCompleted | PaymentFailed

  function PaymentLabel(p: PaymentStatus): string {
    match p
    case PaymentPending => "Pending"
    case PaymentCompleted => "Completed"
    case PaymentFailed => "Failed"
  }

  function ParsePayment(s: string): (r: Option<PaymentStatus>)
    ensures r.Some? ==> PaymentLabel(r.value) == s
    ensures r.None? ==> forall p :: PaymentLabel(p) != s
  {
    if s == "Pending" then Some(PaymentPending)
    else if s == "Completed" then Some(PaymentCompleted)
    else if s == "Failed" then Some(PaymentFailed)
    else None
  }

  datatype Condition = Excellent | Good | Fair | NeedsRepair

  function ConditionLabel(c: Condition): string {
    match c
    case Excellent => "Excellent"
    case Good => "Good"
    case Fair => "Fair"
    case NeedsRepair => "Needs Repair"
  }

  function ParseCondition(s: string): (r: Option<Condition>)
    ensures r.Some? ==> ConditionLabel(r.value) == s
    ensures r.None? ==> forall c :: ConditionLabel(c) != s
  {
    if s == "Excellent" then Some(Excellent)
    else if s == "Good" then Some(Good)
    else if s == "Fair" then Some(Fair)
    else if s == "Needs Repair" then Some(NeedsRepair)
    else None
  }

  /** Each label parses back to its own value: the enums are the label lists. */
  lemma PreferredTimeRoundTrip(p: PreferredTime)
    ensures ParsePreferredTime(PreferredTimeLabel(p)) == Some(p)
  {
    match p
    case Morning =>
    case Afternoon =>
    case Evening =>
  }

  lemma StatusRoundTrip(t: BookingStatus)
    ensures ParseStatus(StatusLabel(t)) == Some(t)
  {
    match t
    case Pending =>
    case Confirmed =>
    case Completed =>
    case Cancelled =>
  }

  /** The trimming setter of `status` leaves every label as it is. */
  lemma {:induction false} StatusLabelTrimmed(t: BookingStatus)
    ensures Trim(StatusLabel(t)) == StatusLabel(t)
  {
    match t
    case Pending => TrimOfTrimmed("Pending");
    case Confirmed => TrimOfTrimmed("Confirmed");
    case Completed => TrimOfTrimmed("Completed");
    case Cancelled => TrimOfTrimmed("Cancelled");
  }

  lemma PaymentRoundTrip(p: PaymentStatus)
    ensures ParsePayment(PaymentLabel(p)) == Some(p)
  {
    match p
    case PaymentPending =>
    case PaymentCompleted =>
    case PaymentFailed =>
  }

  lemma ConditionRoundTrip(c: Condition)
    ensures ParseCondition(ConditionLabel(c)) == Some(c)
  {
    match c
    case Excellent =>
    case Good =>
    case Fair =>
    case NeedsRepair =>
  }

  // ---------------------------------------------------------------------------
  // Validation messages

  const NameRequired := "Name is required"
  const PhoneRequired := "Phone number is required"
  const PhoneInvalid := "Please enter a valid 10-digit phone number"
  const AddressRequired := "Address is required"
  const PickupDateRequired := "Pickup date is required"
  const PreferredTimeRequired := "Preferred time is required"
  /** The message of a `required: true` validator without a custom text. */
  const ServiceRequired := "Path `service` is required."

  /** The message of a failed `enum` validator. */
  function EnumMessage(value: string, path: string): string {
    "`" + value + "` is not a valid enum value for path `" + path + "`."
  }

  // ---------------------------------------------------------------------------
  // Records

  datatype Item = Item(service: string, quantity: int, price: Option<string>)

  datatype HealthReport = HealthReport(condition: Option<Condition>, notes: Option<string>, recommendation: Option<string>)

  /** A persisted booking. `user` is `None` for a guest booking. */
  datatype Booking = Booking(
    user: Option<ObjectId>,
    name: string,
    phone: string,
    address: string,
    pickupDate: Timestamp,
    preferredTime: PreferredTime,
    status: BookingStatus,
    transactionId: Option<string>,
    items: seq<Item>,
    totalAmount: int,
    paymentStatus: PaymentStatus,
    healthReport: HealthReport,
    createdAt: Timestamp)

  /** A submitted item, before defaults. */
  datatype RawItem = RawItem(service: Option<string>, quantity: Option<int>, price: Option<string>)

  datatype RawHealthReport = RawHealthReport(condition: Option<string>, notes: Option<string>, recommendation: Option<string>)

  /** The fields of a submitted body that the schema knows; every one may be absent. */
  datatype RawBooking = RawBooking(
    user: Option<ObjectId>,
    name: Option<string>,
    phone: Option<string>,
    address: Option<string>,
    pickupDate: Option<Timestamp>,
    preferredTime: Option<string>,
    status: Option<string>,
    transactionId: Option<string>,
    items: Option<seq<RawItem>>,
    totalAmount: Option<int>,
    paymentStatus: Option<string>,
    healthReport: Option<RawHealthReport>,
    createdAt: Option<Timestamp>)

  // ---------------------------------------------------------------------------
  // Field rules

  /** The `match: /^\d{10}$/` rule on `phone`. */
  predicate IsTenDigitPhone(s: string) {
    |s| == 10 && forall i :: 0 <= i < |s| ==> IsAsciiDigit(s[i])
  }

  function TrimmedOpt(v: Option<string>): Option<string> {
    match v
    case None => None
    case Some(s) => Some(Trim(s))
  }

  predicate IsPreferredTimeLabel(s: string) {
    exists p :: PreferredTimeLabel(p) == s
  }

  predicate IsStatusLabel(s: string) {
    exists t :: StatusLabel(t) == s
  }

  predicate IsPaymentLabel(s: string) {
    exists p :: PaymentLabel(p) == s
  }

  predicate IsConditionLabel(s: string) {
    exists c :: ConditionLabel(c) == s
  }

  /** Every schema rule holds of the body: the required paths, the phone pattern,
      enum membership of the paths that are given, and `service` on every item. */
  predicate Acceptable(raw: RawBooking) {
    && Supplied(TrimmedOpt(raw.name))
    && raw.phone.Some? && IsTenDigitPhone(raw.phone.value)
    && Supplied(raw.address)
    && raw.pickupDate.Some?
    && raw.preferredTime.Some? && IsPreferredTimeLabel(raw.preferredTime.value)
    && (raw.status.Some? ==> IsStatusLabel(Trim(raw.status.value)))
    && (raw.items.Some? ==> forall i :: 0 <= i < |raw.items.value| ==> Supplied(raw.items.value[i].service))
    && (raw.paymentStatus.Some? ==> IsPaymentLabel(raw.paymentStatus.value))
    && (raw.healthReport.Some? && raw.healthReport.value.condition.Some? ==>
          IsConditionLabel(raw.healthReport.value.condition.value))
  }

  /** The invariant every stored booking satisfies. */
  predicate WellFormed(b: Booking) {
    && b.name != "" && Trim(b.name) == b.name
    && IsTenDigitPhone(b.phone)
    && b.address != ""
    && forall i :: 0 <= i < |b.items| ==> b.items[i].service != ""
  }

  // ---------------------------------------------------------------------------
  // Per-path validators, in schema declaration order. Each reports at most the
  // first failing validator of its path; a path that is absent and not
  // required is not validated.

  function NameErrors(name: Option<string>): (errs: seq<string>)
    ensures errs == [] <==> Supplied(TrimmedOpt(name))
  {
    if Supplied(TrimmedOpt(name)) then [] else [NameRequired]
  }

  function PhoneErrors(phone: Option<string>): (errs: seq<string>)
    ensures errs == [] <==> phone.Some? && IsTenDigitPhone(phone.value)
  {
    if !Supplied(phone) then [PhoneRequired]
    else if !IsTenDigitPhone(phone.value) then [PhoneInvalid]
    else []
  }

  function AddressErrors(address: Option<string>): (errs: seq<string>)
    ensures errs == [] <==> Supplied(address)
  {
    if Supplied(address) then [] else [AddressRequired]
  }

  function PickupDateErrors(pickupDate: Option<Timestamp>): (errs: seq<string>)
    ensures errs == [] <==> pickupDate.Some?
  {
    if pickupDate.Some? then [] else [PickupDateRequired]
  }

  function PreferredTimeErrors(slot: Option<string>): (errs: seq<string>)
    ensures errs == [] <==> slot.Some? && IsPreferredTimeLabel(slot.value)
  {
    if !Supplied(slot) then [PreferredTimeRequired]
    else if ParsePreferredTime(slot.value).None? then [EnumMessage(slot.value, "preferredTime")]
    else []
  }

  /** `status` is trimmed by its setter before the enum check. */
  function StatusErrors(status: Option<string>): (errs: seq<string>)
    ensures errs == [] <==> (status.Some? ==> IsStatusLabel(Trim(status.value)))
  {
    match TrimmedOpt(status)
    case None => []
    case Some(s) => if ParseStatus(s).None? then [EnumMessage(s, "status")] else []
  }

  function ItemErrors(items: seq<RawItem>): (errs: seq<string>)
    ensures errs == [] <==> forall i :: 0 <= i < |items| ==> Supplied(items[i].service)
    ensures forall m :: m in errs ==> m == ServiceRequired
  {
    if items == [] then []
    else
      (if Supplied(items[0].service) then [] else [ServiceRequired]) + ItemErrors(items[1..])
  }

  function PaymentErrors(payment: Option<string>): (errs: seq<string>)
    ensures errs == [] <==> (payment.Some? ==> IsPaymentLabel(payment.value))
  {
    match payment
    case None => []
    case Some(s) => if ParsePayment(s).None? then [EnumMessage(s, "paymentStatus")] else []
  }

  function ConditionErrors(report: Option<RawHealthReport>): (errs: seq<string>)
    ensures errs == [] <==> (report.Some? && report.value.condition.Some? ==>
                               IsConditionLabel(report.value.condition.value))
  {
    if report.Some? && report.value.condition.Some? && ParseCondition(report.value.condition.value).None? then
      [EnumMessage(report.value.condition.value, "healthReport.condition")]
    else []
  }

  /** Every failing validator's message, in schema order. */
  function BookingErrors(raw: RawBooking): (errs: seq<string>)
    ensures errs == [] <==> Acceptable(raw)
  {
    NameErrors(raw.name) + PhoneErrors(raw.phone) + AddressErrors(raw.address) +
    PickupDateErrors(raw.pickupDate) + PreferredTimeErrors(raw.preferredTime) +
    StatusErrors(raw.status) + ItemErrors(raw.items.GetOr([])) +
    PaymentErrors(raw.paymentStatus) + ConditionErrors(raw.healthReport)
  }

  // ---------------------------------------------------------------------------
  // Defaults

  /** An item of a new document: `quantity` defaults to 1. */
  function ToItem(it: RawItem): (item: Item)
    ensures Some(item.service) == it.service || (it.service.None? && item.service == "")
    ensures item.quantity == it.quantity.GetOr(1) && item.price == it.price
  {
    Item(it.service.GetOr(""), it.quantity.GetOr(1), it.price)
  }

  /** The items of a new document; an absent `items` array is empty. */
  function ToItems(items: seq<RawItem>): (r: seq<Item>)
    ensures |r| == |items|
    ensures forall i :: 0 <= i < |items| ==> r[i] == ToItem(items[i])
  {
    seq(|items|, i requires 0 <= i < |items| => ToItem(items[i]))
  }

  function SlotOf(slot: string): (p: PreferredTime)
    requires IsPreferredTimeLabel(slot)
    ensures PreferredTimeLabel(p) == slot
  {
    ParsePreferredTime(slot).value
  }

  /** `status` of a new document: the trimmed submitted label, or `Pending`. */
  function StatusOf(status: Option<string>): (s: BookingStatus)
    requires status.Some? ==> IsStatusLabel(Trim(status.value))
    ensures if status.None? then s == Pending else StatusLabel(s) == Trim(status.value)
  {
    if status.Some? then ParseStatus(Trim(status.value)).value else Pending
  }

  /** `paymentStatus` of a new document: the submitted label, or `Pending`. */
  function PaymentOf(payment: Option<string>): (p: PaymentStatus)
    requires payment.Some? ==> IsPaymentLabel(payment.value)
    ensures if payment.None? then p == PaymentPending else PaymentLabel(p) == payment.value
  {
    if payment.Some? then ParsePayment(payment.value).value else PaymentPending
  }

  /** The nested `healthReport` of a new document: `condition` defaults to `Good`. */
  function InitialHealthReport(report: Option<RawHealthReport>): (h: HealthReport)
    requires report.Some? && report.value.condition.Some? ==> IsConditionLabel(report.value.condition.value)
    ensures report.None? || report.value.condition.None? ==> h.condition == Some(Good)
    ensures report.Some? && report.value.condition.Some? ==>
              h.condition.Some? && ConditionLabel(h.condition.value) == report.value.condition.value
    ensures report.Some? ==> h.notes == report.value.notes && h.recommendation == report.value.recommendation
  {
    match report
    case None => HealthReport(Some(Good), None, None)
    case Some(r) =>
      HealthReport(
        if r.condition.Some? then ParseCondition(r.condition.value) else Some(Good),
        r.notes, r.recommendation)
  }

  /** The record a body that passes validation becomes: the submitted values,
      trimmed where the schema trims, and every default filled in. */
  function Build(raw: RawBooking, now: Timestamp): (b: Booking)
    requires Acceptable(raw)
    ensures WellFormed(b)
    ensures && b.user == raw.user
            && b.name == Trim(raw.name.value)
            && b.phone == raw.phone.value
            && b.address == raw.address.value
            && b.pickupDate == raw.pickupDate.value
            && PreferredTimeLabel(b.preferredTime) == raw.preferredTime.value
            && b.transactionId == TrimmedOpt(raw.transactionId)
  {
    TrimIdempotent(raw.name.value);
    Booking(
      raw.user, Trim(raw.name.value), raw.phone.value, raw.address.value, raw.pickupDate.value,
      SlotOf(raw.preferredTime.value), StatusOf(raw.status), TrimmedOpt(raw.transactionId),
      ToItems(raw.items.GetOr([])), raw.totalAmount.GetOr(0), PaymentOf(raw.paymentStatus),
      InitialHealthReport(raw.healthReport), raw.createdAt.GetOr(now))
  }

  /** The defaults a new document receives for every path the body leaves out. */
  lemma BuildDefaults(raw: RawBooking, now: Timestamp)
    requires Acceptable(raw)
    ensures var b := Build(raw, now);
            if raw.status.None? then b.status == Pending
            else StatusLabel(b.status) == Trim(raw.status.value)
    ensures var b := Build(raw, now);
            if raw.paymentStatus.None? then b.paymentStatus == PaymentPending
            else PaymentLabel(b.paymentStatus) == raw.paymentStatus.value
    ensures var b := Build(raw, now);
            b.totalAmount == raw.totalAmount.GetOr(0)
    ensures var b := Build(raw, now);
            b.createdAt == raw.createdAt.GetOr(now)
    ensures var b := Build(raw, now);
            raw.healthReport.None? || raw.healthReport.value.condition.None? ==>
              b.healthReport.condition == Some(Good)
    ensures var b := Build(raw, now);
            raw.healthReport.Some? && raw.healthReport.value.condition.Some? ==>
              b.healthReport.condition.Some? &&
              ConditionLabel(b.healthReport.condition.value) == raw.healthReport.value.condition.value
  {
  }

  /** Items keep their service and price; `quantity` defaults to 1. */
  lemma BuildItems(raw: RawBooking, now: Timestamp)
    requires Acceptable(raw)
    ensures |Build(raw, now).items| == |raw.items.GetOr([])|
    ensures forall i :: 0 <= i < |Build(raw, now).items| ==>
              var item := Build(raw, now).items[i];
              && Some(item.service) == raw.items.value[i].service
              && item.quantity == raw.items.value[i].quantity.GetOr(1)
              && item.price == raw.items.value[i].price
  {
  }

  /** Casting a new document from its body: validation, then the record with
      every default filled in. `now` is the clock reading that `Date.now` supplies. */
  function ValidateBooking(raw: RawBooking, now: Timestamp): (r: Result<Booking, seq<string>>)
    ensures r.Ok? <==> Acceptable(raw)
    ensures r.Ok? ==> WellFormed(r.value) && r.value.user == raw.user
    // an accepted body is stored with every default filled in
    ensures r.Ok? ==> r.value == Build(raw, now)
    ensures r.Err? ==> |r.error| > 0
  {
    var errs := BookingErrors(raw);
    if errs != [] then Err(errs) else Ok(Build(raw, now))
  }

  /** The messages of the presence and format rules of the top-level paths. */
  lemma FieldMessages(raw: RawBooking)
    ensures var errs := BookingErrors(raw);
      && (!Supplied(TrimmedOpt(raw.name)) ==> NameRequired in errs)
      && (!Supplied(raw.phone) ==> PhoneRequired in errs)
      && (Supplied(raw.phone) && !IsTenDigitPhone(raw.phone.value) ==> PhoneInvalid in errs)
      && (!Supplied(raw.address) ==> AddressRequired in errs)
      && (raw.pickupDate.None? ==> PickupDateRequired in errs)
      && (!Supplied(raw.preferredTime) ==> PreferredTimeRequired in errs)
      && (Supplied(raw.preferredTime) && !IsPreferredTimeLabel(raw.preferredTime.value) ==>
            EnumMessage(raw.preferredTime.value, "preferredTime") in errs)
  {
    var name, phone, address := NameErrors(raw.name), PhoneErrors(raw.phone), AddressErrors(raw.address);
    var date, slot := PickupDateErrors(raw.pickupDate), PreferredTimeErrors(raw.preferredTime);
    var rest := StatusErrors(raw.status) + ItemErrors(raw.items.GetOr([])) +
                PaymentErrors(raw.paymentStatus) + ConditionErrors(raw.healthReport);
    assert BookingErrors(raw) == name + phone + address + date + slot + rest;
  }

  /** The messages of the enum rules and of the nested paths. */
  lemma NestedMessages(raw: RawBooking)
    ensures var errs := BookingErrors(raw);
      && (raw.status.Some? && !IsStatusLabel(Trim(raw.status.value)) ==>
            EnumMessage(Trim(raw.status.value), "status") in errs)
      && (raw.paymentStatus.Some? && !IsPaymentLabel(raw.paymentStatus.value) ==>
            EnumMessage(raw.paymentStatus.value, "paymentStatus") in errs)
      && (raw.items.Some? && (exists i :: 0 <= i < |raw.items.value| && !Supplied(raw.items.value[i].service)) ==>
            ServiceRequired in errs)
      && (raw.healthReport.Some? && raw.healthReport.value.condition.Some? &&
          !IsConditionLabel(raw.healthReport.value.condition.value) ==>
            EnumMessage(raw.healthReport.value.condition.value, "healthReport.condition") in errs)
  {
    var head := NameErrors(raw.name) + PhoneErrors(raw.phone) + AddressErrors(raw.address) +
                PickupDateErrors(raw.pickupDate) + PreferredTimeErrors(raw.preferredTime);
    assert BookingErrors(raw) == head + StatusErrors(raw.status) + ItemErrors(raw.items.GetOr([])) +
                                 PaymentErrors(raw.paymentStatus) + ConditionErrors(raw.healthReport);
    if raw.items.Some? && (exists i :: 0 <= i < |raw.items.value| && !Supplied(raw.items.value[i].service)) {
      var itemErrs := ItemErrors(raw.items.value);
      assert itemErrs != [] && itemErrs[0] in itemErrs;
      assert ServiceRequired in itemErrs;
    }
  }

  /** Each rule that fails is reported with its own message. */
  lemma RejectionMessages(raw: RawBooking, now: Timestamp)
    ensures var r := ValidateBooking(raw, now);
      && (!Supplied(TrimmedOpt(raw.name)) ==> r.Err? && NameRequired in r.error)
      && (!Supplied(raw.phone) ==> r.Err? && PhoneRequired in r.error)
      && (Supplied(raw.phone) && !IsTenDigitPhone(raw.phone.value) ==> r.Err? && PhoneInvalid in r.error)
      && (!Supplied(raw.address) ==> r.Err? && AddressRequired in r.error)
      && (raw.pickupDate.None? ==> r.Err? && PickupDateRequired in r.error)
      && (!Supplied(raw.preferredTime) ==> r.Err? && PreferredTimeRequired in r.error)
      && (Supplied(raw.preferredTime) && !IsPreferredTimeLabel(raw.preferredTime.value) ==>
            r.Err? && EnumMessage(raw.preferredTime.value, "preferredTime") in r.error)
      && (raw.status.Some? && !IsStatusLabel(Trim(raw.status.value)) ==>
            r.Err? && EnumMessage(Trim(raw.status.value), "status") in r.error)
      && (raw.paymentStatus.Some? && !IsPaymentLabel(raw.paymentStatus.value) ==>
            r.Err? && EnumMessage(raw.paymentStatus.value, "paymentStatus") in r.error)
    ensures var r := ValidateBooking(raw, now);
      && (raw.items.Some? && (exists i :: 0 <= i < |raw.items.value| && !Supplied(raw.items.value[i].service)) ==>
            r.Err? && ServiceRequired in r.error)
      && (raw.healthReport.Some? && raw.healthReport.value.condition.Some? &&
          !IsConditionLabel(raw.healthReport.value.condition.value) ==>
            r.Err? && EnumMessage(raw.healthReport.value.condition.value, "healthReport.condition") in r.error)
  {
    FieldMessages(raw);
    NestedMessages(raw);
  }
}
