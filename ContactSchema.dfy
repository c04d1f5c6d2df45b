/** The Contact schema: a message sent through the contact form. */
module ContactSchema {
  import opened Wrappers
  import opened Documents
  import opened Strings

  datatype ContactStatus = New | Replied

  function ContactStatusLabel(s: ContactStatus): string {
    match s
    case New => "New"
    case Replied => "Replied"
  }

  function ParseContactStatus(s: string): (r: Option<ContactStatus>)
    ensures r.Some? ==> ContactStatusLabel(r.value) == s
    ensures r.None? ==> forall t :: ContactStatusLabel(t) != s
  {
    if s == "New" then Some(New) else if s == "Replied" then Some(Replied) else None
  }

  const FirstNameRequired := "First name is required"
  const LastNameRequired := "Last name is required"
  const EmailRequired := "Email is required"
  const EmailInvalid := "Please enter a valid email address"
  const PhoneRequired := "Phone number is required"
  const MessageRequired := "Message is required"

  function ContactEnumMessage(value: string): string {
    "`" + value + "` is not a valid enum value for path `status`."
  }

  // ---------------------------------------------------------------------------
  // The email pattern  ^\w+([\.-]?\w+)*@\w+([\.-]?\w+)*(\.\w{2,3})+$

  /** `\w` without the `u` flag. */
  predicate IsWordChar(c: char) {
    ('a' <= c <= 'z') || ('A' <= c <= 'Z') || ('0' <= c <= '9') || c == '_'
  }

  predicate AllWordChars(s: string) {
    forall i :: 0 <= i < |s| ==> IsWordChar(s[i])
  }

  /** The language of `\w+([\.-]?\w+)*`: word characters, with a single `.` or `-`
      allowed between two of them. */
  predicate IsDottedWord(s: string) {
    && |s| > 0 && IsWordChar(s[0]) && IsWordChar(s[|s| - 1])
    && (forall i :: 0 <= i < |s| ==> IsWordChar(s[i]) || s[i] == '.' || s[i] == '-')
    && (forall i :: 0 <= i < |s| - 1 ==> IsWordChar(s[i]) || IsWordChar(s[i + 1]))
  }

  /** The language of `(\.\w{2,3})+`. */
  predicate IsSuffixGroups(t: string)
    decreases |t|
  {
    && |t| >= 3 && t[0] == '.'
    && ((AllWordChars(t[1..3]) && (|t| == 3 || IsSuffixGroups(t[3..]))) ||
        (|t| >= 4 && AllWordChars(t[1..4]) && (|t| == 4 || IsSuffixGroups(t[4..]))))
  }

  /** The part after `@`: `\w+([\.-]?\w+)*(\.\w{2,3})+`. */
  predicate IsEmailDomain(d: string) {
    exists k :: 0 < k < |d| && IsDottedWord(d[..k]) && IsSuffixGroups(d[k..])
  }

  /** The whole pattern, anchored at both ends. */
  predicate IsEmail(e: string) {
    exists a :: 0 <= a < |e| && e[a] == '@' && IsDottedWord(e[..a]) && IsEmailDomain(e[a + 1..])
  }

  /** A string without `@` never matches. */
  lemma NoAtSignNoEmail(e: string)
    requires forall i :: 0 <= i < |e| ==> e[i] != '@'
    ensures !IsEmail(e)
  {
  }

  /** A matching address has a `.` after its `@`. */
  lemma {:induction false} EmailDomainHasDot(d: string)
    requires IsEmailDomain(d)
    ensures exists i :: 0 <= i < |d| && d[i] == '.'
  {
    var k :| 0 < k < |d| && IsDottedWord(d[..k]) && IsSuffixGroups(d[k..]);
    assert d[k] == d[k..][0];
  }

  /** A run of word characters is a dotted word. */
  lemma WordIsDottedWord(s: string)
    requires |s| > 0 && AllWordChars(s)
    ensures IsDottedWord(s)
  {
  }

  /** An address of the usual shape matches. */
  lemma SampleEmailMatches()
    ensures IsEmail("admin@saricare.com")
  {
    var e := "admin@saricare.com";
    var local, d := e[..5], e[6..];
    assert local == "admin" && e[5] == '@' && d == "saricare.com";
    WordIsDottedWord(local);
    var host, tld := d[..8], d[8..];
    assert host == "saricare" && tld == ".com";
    WordIsDottedWord(host);
    assert tld[1..4] == "com";
    assert IsSuffixGroups(tld);
    assert IsEmailDomain(d);
  }

  // ---------------------------------------------------------------------------
  // Records

  /** A persisted contact message. A contact status that was set to nothing is `None`. */
  datatype Contact = Contact(
    firstName: string,
    lastName: string,
    email: string,
    phone: string,
    message: string,
    status: Option<ContactStatus>,
    createdAt: Timestamp)

  datatype RawContact = RawContact(
    firstName: Option<string>,
    lastName: Option<string>,
    email: Option<string>,
    phone: Option<string>,
    message: Option<string>,
    status: Option<string>,
    createdAt: Option<Timestamp>)

  /** Every schema rule holds of the body. `phone` is only required: it has no pattern. */
  predicate ContactAcceptable(raw: RawContact) {
    && Supplied(raw.firstName) && Supplied(raw.lastName)
    && raw.email.Some? && IsEmail(raw.email.value)
    && Supplied(raw.phone) && Supplied(raw.message)
    && (raw.status.Some? ==> ParseContactStatus(raw.status.value).Some?)
  }

  /** The invariant of a stored contact message. */
  predicate ContactWellFormed(c: Contact) {
    c.firstName != "" && c.lastName != "" && IsEmail(c.email) && c.phone != "" && c.message != ""
  }

  function RequiredErrors(v: Option<string>, msg: string): (errs: seq<string>)
    ensures errs == [] <==> Supplied(v)
  {
    if Supplied(v) then [] else [msg]
  }

  function EmailErrors(email: Option<string>): (errs: seq<string>)
    ensures errs == [] <==> email.Some? && IsEmail(email.value)
  {
    if !Supplied(email) then [EmailRequired]
    else if !IsEmail(email.value) then [EmailInvalid]
    else []
  }

  function ContactStatusErrors(status: Option<string>): (errs: seq<string>)
    ensures errs == [] <==> (status.Some? ==> ParseContactStatus(status.value).Some?)
  {
    match status
    case None => []
    case Some(s) => if ParseContactStatus(s).None? then [ContactEnumMessage(s)] else []
  }

  /** Every failing validator's message, in schema order. */
  function ContactErrors(raw: RawContact): (errs: seq<string>)
    ensures errs == [] <==> ContactAcceptable(raw)
  {
    RequiredErrors(raw.firstName, FirstNameRequired) + RequiredErrors(raw.lastName, LastNameRequired) +
    EmailErrors(raw.email) + RequiredErrors(raw.phone, PhoneRequired) +
    RequiredErrors(raw.message, MessageRequired) + ContactStatusErrors(raw.status)
  }

  /** Casting a new contact document: validation, then the record with `status`
      defaulting to `New` and `createdAt` to the clock reading `now`. */
  function ValidateContact(raw: RawContact, now: Timestamp): (r: Result<Contact, seq<string>>)
    ensures r.Ok? <==> ContactAcceptable(raw)
    ensures r.Err? ==> |r.error| > 0
    ensures r.Ok? ==> && ContactWellFormed(r.value)
                      && r.value.firstName == raw.firstName.value && r.value.lastName == raw.lastName.value
                      && r.value.email == raw.email.value && r.value.phone == raw.phone.value
                      && r.value.message == raw.message.value
                      && r.value.createdAt == raw.createdAt.GetOr(now)
    ensures r.Ok? ==> if raw.status.None? then r.value.status == Some(New)
                      else r.value.status.Some? && ContactStatusLabel(r.value.status.value) == raw.status.value
  {
    var errs := ContactErrors(raw);
    if errs != [] then Err(errs)
    else
      Ok(Contact(
        raw.firstName.value, raw.lastName.value, raw.email.value, raw.phone.value, raw.message.value,
        if raw.status.Some? then ParseContactStatus(raw.status.value) else Some(New),
        raw.createdAt.GetOr(now)))
  }

  /** Each rule that fails is reported with its own message; an email without `@` is invalid. */
  lemma ContactRejectionMessages(raw: RawContact, now: Timestamp)
    ensures var r := ValidateContact(raw, now);
      && (!Supplied(raw.firstName) ==> r.Err? && FirstNameRequired in r.error)
      && (!Supplied(raw.lastName) ==> r.Err? && LastNameRequired in r.error)
      && (!Supplied(raw.email) ==> r.Err? && EmailRequired in r.error)
      && (Supplied(raw.email) && !IsEmail(raw.email.value) ==> r.Err? && EmailInvalid in r.error)
      && (!Supplied(raw.phone) ==> r.Err? && PhoneRequired in r.error)
      && (!Supplied(raw.message) ==> r.Err? && MessageRequired in r.error)
      && (raw.status.Some? && ParseContactStatus(raw.status.value).None? ==>
            r.Err? && ContactEnumMessage(raw.status.value) in r.error)
  {
  }

  /** Unlike a booking's, a contact's phone is accepted whatever characters it holds. */
  lemma ContactPhoneUnconstrained(raw: RawContact, now: Timestamp, phone: string)
    requires ValidateContact(raw, now).Ok?
    requires phone != ""
    ensures ValidateContact(raw.(phone := Some(phone)), now).Ok?
    ensures ValidateContact(raw.(phone := Some(phone)), now).value.phone == phone
  {
  }
}
