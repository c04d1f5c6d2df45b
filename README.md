# SariCare backend core in Dafny

SariCare's backend is an Express/Mongoose service. Customers book device pick-ups
(`Booking`) and send contact messages (`Contact`). Admins see dashboard counts and
listings, and move bookings and messages through their statuses. A middleware
seeds an admin account; it is registered after the routers, so only requests that
no route answers run it (see "## Findings").

This project models five parts of that service and proves properties about them:

- **The two schemas** (`BookingSchema`, `ContactSchema`). A submitted body is cast
  into a record with these steps, in schema order:
  - required-path checks;
  - the ten-digit phone pattern and the email pattern;
  - enum membership, after the `trim` setter on `name` and `status`;
  - default filling, at construction only.

  Validation yields `Ok(record)` or `Err(messages)`.
- **The booking controller** (`BookingController`), made of pure functions:
  - binding the caller to a new booking, where the body's own `user` is overridden;
  - the owner filter for "my bookings";
  - lookup by id, which gives a 404 when the id is absent.
- **The admin controller** (`AdminController`, `Lifecycle`):
  - Three updates, each on a loaded document and then saved (which validates it). They are specification functions, applied by the methods of two store classes that hold the collections as maps.
  - The dashboard counts.
  - The newest-first listings.
  - The user listing with passwords removed.
- **The error handler** (`ErrorMiddleware`): an imperative method. It overrides status and message rule by rule and hides the stack in production. It is composed with the faults the controllers raise.
- **The admin seeding** (`AdminSeeding`), made of two parts:
  - the process-wide `adminSeeded` flag and the users collection, as a class;
  - its specification step function, and lemmas over any sequence of requests.

Helper modules:
- `Wrappers`: `Option` and `Result`.
- `Documents`: ids and timestamps.
- `Strings`: ECMAScript `trim` and `\d`.
- `Ordering`: a newest-first sort, proved sorted and a permutation.
- `Counting`: `countDocuments` with a filter, used by the dashboard counts and by the seeding invariant.
- `Users`: the user record. `models/User.js` is not part of this model, so only the fields its callers use appear.

A request body is a record of `Option` fields. `None` is a path that is absent, or
`undefined`; a JSON `null` is treated the same way. A store write that throws is a
`Fault`. The handler turns a `Fault` into the HTTP response.

The code has no transition table for booking status: any status may follow any
other, and the only check is the enum (`AdminController.AnyStatusTransitionAccepted`).
The seeding swallows every error alike, with no special case for a duplicate key.

## Model

| member | source | states |
|---|---|---|
| BookingSchema.ParsePreferredTime | models/Booking.js:27-31 | a slot string is accepted exactly when it is one of the three slot labels, and then it is that label |
| BookingSchema.PreferredTimeRoundTrip | models/Booking.js:30 | each slot label parses back to its own slot |
| BookingSchema.ParseStatus | models/Booking.js:32-37 | a status string is accepted exactly when it is Pending, Confirmed, Completed or Cancelled |
| BookingSchema.StatusRoundTrip | models/Booking.js:36 | each status label parses back to its own status |
| BookingSchema.StatusLabelTrimmed | models/Booking.js:35-36 | the trim setter leaves every status label unchanged |
| BookingSchema.ParsePayment | models/Booking.js:51-55 | a payment status is accepted exactly when it is Pending, Completed or Failed |
| BookingSchema.PaymentRoundTrip | models/Booking.js:53 | each payment label parses back to its own value |
| BookingSchema.ParseCondition | models/Booking.js:57-61 | a condition is accepted exactly when it is Excellent, Good, Fair or Needs Repair |
| BookingSchema.ConditionRoundTrip | models/Booking.js:59 | each condition label parses back to its own value |
| BookingSchema.NameErrors | models/Booking.js:9-13 | no name error exactly when the trimmed name is present and non-empty |
| BookingSchema.IsTenDigitPhone | models/Booking.js:17 | the language of `/^\d{10}$/`: exactly ten ASCII digits |
| BookingSchema.PhoneErrors | models/Booking.js:14-18 | no phone error exactly when the phone is exactly ten ASCII digits; nine or eleven digits, or any other character, fail |
| BookingSchema.AddressErrors | models/Booking.js:19-22 | no address error exactly when the address is present and non-empty |
| BookingSchema.PickupDateErrors | models/Booking.js:23-26 | no pickup-date error exactly when a date is given |
| BookingSchema.PreferredTimeErrors | models/Booking.js:27-31 | no slot error exactly when the slot is given and is one of the three labels |
| BookingSchema.StatusErrors | models/Booking.js:32-37 | no status error exactly when the status is absent or is a status label after trimming |
| BookingSchema.ItemErrors | models/Booking.js:42-46 | no item error exactly when every item has a non-empty `service` |
| BookingSchema.PaymentErrors | models/Booking.js:51-55 | no payment error exactly when the payment status is absent or a payment label |
| BookingSchema.ConditionErrors | models/Booking.js:56-64 | no condition error exactly when the report or its condition is absent, or the condition is a condition label |
| BookingSchema.BookingErrors | models/Booking.js:3-66 | the error list is empty exactly when every rule of the schema holds |
| BookingSchema.ToItem | models/Booking.js:42-46 | an item keeps its service and price, and its quantity defaults to 1 |
| BookingSchema.ToItems | models/Booking.js:42-46 | the items are converted one for one, in order |
| BookingSchema.SlotOf | models/Booking.js:27-31 | the stored slot has the submitted label |
| BookingSchema.StatusOf | models/Booking.js:32-37 | a new document's status is the trimmed submitted label, or Pending when none is given |
| BookingSchema.PaymentOf | models/Booking.js:51-55 | a new document's payment status is the submitted label, or Pending when none is given |
| BookingSchema.InitialHealthReport | models/Booking.js:56-64 | a new report's condition is the submitted one, or Good when none is given; notes and recommendation pass through |
| BookingSchema.Build | models/Booking.js:3-66 | an accepted body yields a well-formed record: `user` passes through, `name` and `transactionId` are trimmed, and phone, address, date and slot are the submitted values |
| BookingSchema.BuildDefaults | models/Booking.js:32-65 | status and payment default to Pending, `totalAmount` to 0 with no lower bound, condition to Good, and `createdAt` to the clock |
| BookingSchema.BuildItems | models/Booking.js:42-46 | each stored item keeps its service and price, and its quantity defaults to 1 |
| BookingSchema.ValidateBooking | models/Booking.js:3-66 | Ok exactly when every rule holds; an Ok record is the body with every default filled in (`Build`), is well-formed and keeps `user`; an Err carries at least one message |
| BookingSchema.FieldMessages | models/Booking.js:9-31 | the combined error list holds the message of each failing presence or format rule of the top-level paths (name, phone, address, pickup date, slot) |
| BookingSchema.NestedMessages | models/Booking.js:32-64 | the combined error list holds the message of an out-of-enum status or payment status, of an item without `service` and of an out-of-enum health condition |
| BookingSchema.RejectionMessages | models/Booking.js:9-64 | each missing required path, a bad phone, an item without `service`, and each out-of-enum value (slot, status, payment status, health condition) is reported with its own message |
| ContactSchema.ParseContactStatus | models/Contact.js:13-17 | a contact status is accepted exactly when it is New or Replied |
| ContactSchema.RequiredErrors | models/Contact.js:4-12 | a required path has no error exactly when it is present and non-empty |
| ContactSchema.IsEmail | models/Contact.js:9 | the language of the email pattern, anchored at both ends: a local part, `@`, and a domain ending in suffix groups of two or three word characters |
| ContactSchema.EmailErrors | models/Contact.js:6-10 | no email error exactly when the email is present and matches the pattern |
| ContactSchema.NoAtSignNoEmail | models/Contact.js:9 | a string without `@` never matches the email pattern |
| ContactSchema.EmailDomainHasDot | models/Contact.js:9 | the part after `@` of a matching address contains a `.` |
| ContactSchema.WordIsDottedWord | models/Contact.js:9 | a non-empty run of word characters matches `\w+([\.-]?\w+)*` |
| ContactSchema.SampleEmailMatches | models/Contact.js:9 | `admin@saricare.com` matches the pattern |
| ContactSchema.ContactStatusErrors | models/Contact.js:13-17 | no status error exactly when the status is absent or is New or Replied |
| ContactSchema.ContactErrors | models/Contact.js:3-19 | the error list is empty exactly when every rule of the schema holds |
| ContactSchema.ValidateContact | models/Contact.js:3-19 | Ok exactly when every rule holds; the fields carry over and status defaults to New; an Err carries at least one message |
| ContactSchema.ContactRejectionMessages | models/Contact.js:4-17 | each missing required path, a bad email and a bad status is reported with its own message |
| ContactSchema.ContactPhoneUnconstrained | models/Contact.js:11 | any non-empty phone string is accepted and stored as given, unlike a booking's phone |
| Strings.Trim | models/Booking.js:12 | the result has no whitespace at either end and is no longer than the input |
| Strings.TrimSlice | models/Booking.js:12 | the result is a slice of the input with only whitespace before and after it: `trim` removes whitespace and nothing else, and only at the ends |
| Strings.TrimOfTrimmed | models/Booking.js:12 | a string with no whitespace at either end is left as it is |
| Strings.TrimIdempotent | models/Booking.js:35 | trimming twice is the same as trimming once |
| Strings.TrimEmptyIff | models/Booking.js:11-12 | a name trims to empty exactly when it is all whitespace, so such a name fails `required` |
| Ordering.SortNewestFirst | controllers/adminController.js:35 | the result is ordered by `createdAt` descending and is a permutation of the input |
| BookingController.WithUser | controllers/bookingController.js:8-11 | the data's `user` is the caller's identity, and every other field is the body's |
| BookingController.NewBooking | controllers/bookingController.js:8-13 | a created booking has `user` equal to the caller's id, or none for a guest, and is well-formed; it is created exactly when the rebound body passes validation |
| BookingController.BodyUserIgnored | controllers/bookingController.js:8-11 | two bodies that differ only in `user` give the same outcome |
| BookingController.UserBookings | controllers/bookingController.js:21 | the result holds exactly the bookings whose `user` is the caller, each as many times as the collection holds it |
| BookingController.UserBookingsAppend | controllers/bookingController.js:21 | the filter keeps collection order: a booking appended to the collection is appended to the answer when the caller owns it, and otherwise changes nothing |
| BookingController.FindBooking | controllers/bookingController.js:28-36 | the stored record exactly when the id is present, otherwise NotFound "Booking not found" |
| AdminController.StatusUpdateErrors | controllers/adminController.js:47-51 | no error exactly when neither a supplied status nor a supplied payment status is outside its enum; each bad value is reported |
| AdminController.UpdatedStatus | controllers/adminController.js:47 | a truthy status replaces the old one, through the trim setter; otherwise the old status stays |
| AdminController.UpdatedPayment | controllers/adminController.js:49 | a truthy payment status replaces the old one; otherwise the old value stays |
| AdminController.AssignStatusFields | controllers/adminController.js:47-49 | the three conditional assignments on the loaded document, for accepted values, give exactly the `Ok` result of `ApplyStatusUpdate` |
| AdminController.ApplyStatusUpdate | controllers/adminController.js:42-52 | Err exactly when a supplied value is outside its enum; otherwise only status, `totalAmount` and payment change, as the three conditional assignments say |
| AdminController.StatusUpdatePreservesWellFormed | controllers/adminController.js:47-51 | a successful status update keeps a record well-formed |
| AdminController.AnyStatusTransitionAccepted | controllers/adminController.js:47-51 | every status can follow every status, with no transition rule |
| AdminController.ZeroAmountApplied | controllers/adminController.js:47-49 | an explicit 0 amount is written, while empty status and payment strings are ignored |
| AdminController.StatusUpdateIdempotent | controllers/adminController.js:42-52 | repeating a successful update changes nothing further |
| AdminController.ReplaceHealthReport | controllers/adminController.js:87-98 | Err exactly when a given condition is outside its enum; otherwise the report is exactly the three body fields, with no default applied, and nothing else changes |
| AdminController.HealthReportPreservesWellFormed | controllers/adminController.js:92-97 | a successful report update keeps a record well-formed |
| AdminController.HealthReportWholesale | controllers/adminController.js:92-96 | the new report does not depend on the report it replaces |
| AdminController.SetContactStatus | controllers/adminController.js:72-76 | Err exactly when a given status is outside the enum; otherwise the status is the given one, or cleared when none is given, and nothing else changes |
| Counting.Count | controllers/adminController.js:10-16 | `countDocuments(filter)`: at most the number of documents, and zero exactly when no document matches |
| Counting.CountAppend | index.js:72-79 | adding a document adds one to the count of each filter it matches and nothing to any other; so an added admin never adds to `userCount`, and the seeded admin adds one to its email's count |
| AdminController.WorkingNeverStored | controllers/adminController.js:15 | no stored booking has status `Working`, which is not in the schema's enum |
| AdminController.StatusCountsBounded | controllers/adminController.js:14-16 | counts for three distinct status strings add up to at most the number of bookings |
| AdminController.DashboardStats | controllers/adminController.js:9-27 | `userCount` counts role `user` only; `working` is always 0; pending + working + completed is at most `bookingCount` |
| AdminController.AllBookings | controllers/adminController.js:32-37 | every booking, newest first |
| AdminController.AllContacts | controllers/adminController.js:62-65 | every contact message, newest first |
| AdminController.RegularUsers | controllers/adminController.js:109 | exactly the users of role `user`, each without a password |
| AdminController.AllUsers | controllers/adminController.js:108-111 | the role-`user` users without passwords, newest first; their number is the dashboard's `userCount` |
| Lifecycle.InsertWellFormed | controllers/adminController.js:51 | saving a well-formed booking keeps every stored booking well-formed |
| Lifecycle.InsertContactWellFormed | controllers/adminController.js:76 | saving a well-formed contact keeps every stored contact well-formed |
| Lifecycle.BookingStore.constructor | models/Booking.js:68 | the store starts with the given bookings, all well-formed |
| Lifecycle.BookingStore.CreateBooking | controllers/bookingController.js:7-15 | a validation failure or a taken id adds nothing; otherwise exactly the validated booking is inserted, owned by the caller |
| Lifecycle.BookingStore.UpdateBookingStatus | controllers/adminController.js:42-57 | an absent id is a 404 "Booking not found" that changes nothing; otherwise the stored booking becomes `ApplyStatusUpdate` of it, or nothing changes when that fails |
| Lifecycle.BookingStore.UpdateHealthReport | controllers/adminController.js:87-103 | an absent id is a 404 "Booking not found"; otherwise the stored booking becomes `ReplaceHealthReport` of it, or nothing changes when that fails |
| Lifecycle.ContactStore.constructor | models/Contact.js:21 | the store starts with the given contacts, all well-formed |
| Lifecycle.ContactStore.UpdateContactStatus | controllers/adminController.js:70-82 | an absent id is a 404 "Contact message not found"; otherwise the stored contact becomes `SetContactStatus` of it, or nothing changes when that fails |
| ErrorMiddleware.JoinMessages | middleware/errorMiddleware.js:20 | `.join(', ')`: empty for no messages, a single message undecorated, and otherwise led by the first message |
| ErrorMiddleware.JoinAppend | middleware/errorMiddleware.js:20 | joining two lists puts exactly one `, ` between the two joined parts |
| ErrorMiddleware.JoinEmptyIff | middleware/errorMiddleware.js:20 | the joined message is empty exactly when there is no message or one empty message |
| ErrorMiddleware.JoinLength | middleware/errorMiddleware.js:20 | the joined length is the messages' total length plus two per separator |
| ErrorMiddleware.Raise | controllers/bookingController.js:33-34 | only the not-found paths (also controllers/adminController.js:54-55, 79-80 and 100-101) set a status, 404, before throwing; a failed save throws a `ValidationError` carrying its field messages, a unique-index violation an error with code 11000 |
| ErrorMiddleware.FallbackStatus | middleware/errorMiddleware.js:2-26 | the existing status, or 500 when unset or 200; never 200 |
| ErrorMiddleware.HandleError | middleware/errorMiddleware.js:1-34 | a validation error gives 400 and the joined field messages; otherwise a duplicate key gives 400; otherwise an ObjectId cast gives 404; otherwise the fallback status and `err.message`; never 200; the stack is hidden exactly in production |
| ErrorMiddleware.RespondToFault | middleware/errorMiddleware.js:1-34 | a 404 controller error keeps its status and message; a failed save gives 400 and the joined messages; a duplicate key gives 400 "Duplicate field value entered" |
| Users.WithoutPassword | controllers/adminController.js:109 | the public view of a user keeps every field but the password: id, name, email, mobile, gender, role and creation time |
| AdminSeeding.AdminEmail | index.js:68 | the configured email when it is set and non-empty, otherwise `admin@saricare.com` |
| AdminSeeding.SeedUser | index.js:72-79 | the seeded document has role admin, name Admin, mobile 0000000000, gender Other, and the configured email and password |
| AdminSeeding.FindByEmail | index.js:70 | a user is found exactly when some user has the email, and the user found has it |
| AdminSeeding.SeedStep | index.js:64-87 | one `seedAdmin` call: existing users are never changed and at most the admin document is appended; the flag is never cleared and is set by every call whose store calls succeed |
| AdminSeeding.SeededIsNoOp | index.js:65 | once the flag is set, a call neither reads nor writes |
| AdminSeeding.CreatesWhenAbsent | index.js:70-83 | with no user holding the email, a call that does not throw appends exactly the admin document and sets the flag |
| AdminSeeding.ExistingUserUntouched | index.js:70-83 | an existing user with the email is left as it is, nothing is created, and the flag is set |
| AdminSeeding.FlagSetOnlyOnSuccess | index.js:83-86 | the flag is set exactly when the calls get through without a throw; a call that throws changes nothing, so the next one retries |
| AdminSeeding.SeedStepKeepsInvariant | index.js:64-87 | at most one user holds the admin email, and exactly one once the flag is set; each call keeps this |
| AdminSeeding.SeedRunKeepsInvariant | index.js:64-87 | any sequence of calls, with any failures, keeps that invariant |
| AdminSeeding.SeededRunIsNoOp | index.js:65 | after seeding, any further calls leave the state unchanged |
| AdminSeeding.SeedRunSucceedsOnce | index.js:64-87 | one call without a throw is enough: afterwards the flag is set and exactly one user has the admin email |
| AdminSeeding.TwoSequentialCalls | index.js:64-87 | two calls in a row leave exactly one user with the admin email when either gets through |
| AdminSeeding.AdminSeeder.constructor | index.js:62 | the flag starts false |
| AdminSeeding.AdminSeeder.SeedAdmin | index.js:64-87 | the new flag and users are exactly one seeding step applied to the old ones |
| AdminSeeding.AdminSeeder.SeedingMiddleware | index.js:90-93 | the request always proceeds, after one seeding step |
| AdminSeeding.DispatchAsWritten | index.js:52-93 | as registered, a request that a route answers never changes the seeding state, and one that no route answers is seeded as the intended chain would |
| AdminSeeding.Dispatch | index.js:89-93 | as the comment intends, the first request whose store calls succeed seeds an unseeded process whatever route handles it, and a failed lookup never seeds it |
| AdminSeeding.AnsweredRequestsNeverSeed | index.js:52-93 | in the chain as registered, requests that a route answers never change the seeding state |
| AdminSeeding.SeedingSkippedOnAnsweredRequest | index.js:52-93 | on a cold start with no users and no store failure, a routed request does not create the admin as registered, but does when seeding runs first |
| AdminSeeding.DispatchSeedsOnFirstSuccess | index.js:89-93 | with seeding first, the first request whose store calls go through seeds exactly one admin, whichever route answers it |

## Left out

- The routers, the `protect` and `admin` guards, `models/User.js` and the auth routes are not part of this model. So `req.user` is a parameter (`identity`), and user records carry only the fields their callers use.
- `config/db.js`, the third-party middleware (helmet, xss-clean, mongo-sanitize, the rate limiter, CORS, morgan, the JSON parser) and `controllers/contactController.js` are not modelled. Contact creation is covered by `ContactSchema.ValidateContact`.
- Id generation and the clock are parameters (`newId`, `now`), and so are the environment variables `ADMIN_EMAIL`, `ADMIN_PASSWORD` and `NODE_ENV`.
- Casting is not modelled: ObjectId casting of `req.params.id`, which would raise a CastError shown as a 404 "Resource not found", Date parsing of `pickupDate`, and Number casting of `totalAmount` and `quantity`. Ids and dates are abstract values, and amounts are unbounded integers, not floating-point numbers.
- JSON `null` and an absent field are both `None`. Body fields outside the schema are dropped before validation, since the schema is strict.
- `populate('user', 'name email')` on the booking listing is not modelled: the listing returns the stored records.
- The order of `err.errors` is assumed to be schema declaration order, and only the first failing validator of a path is reported.
- The `message` text of the store's own ValidationError and duplicate-key error is not modelled, because the handler always replaces it.
- Password hashing, which a `User` pre-save hook would do, is not modelled: the seeded password is stored as configured. Whether `User.create` rejects a missing `ADMIN_PASSWORD` depends on `models/User.js`, so a create failure is the `CreateFails` parameter.
- Concurrency is not modelled: two requests racing through `seedAdmin`, several server processes, and interleaved saves. Every call is sequential.
- Console logging of the seeding outcome is not modelled.
- Lifecycle.BookingStore.UpdateHealthReport: the body calls `ReplaceHealthReport` for the assignment and the save, rather than assigning the nested object field by field.
- Lifecycle.BookingStore.UpdateBookingStatus: the save's enum check is evaluated before the three assignments, on the values about to be assigned. This order gives the same outcome.
- AdminController.ReplaceHealthReport: a report assigned without `condition` is stored and returned with no condition. The model fills schema defaults only when a document is constructed. If the store also fills a default into an undefined path when it loads a document, a later read would show `Good`; `BookingController.FindBooking`, `BookingController.UserBookings` and `AdminController.AllBookings` return the record as stored, without that load-time default.
- AdminController.SetContactStatus: a status cleared by an update without `status` stays cleared. The empty value is what the saving request returns. A load-time default of `New` on later reads, in `AdminController.AllContacts`, is not modelled.
- The contacts collection is a separate class, `Lifecycle.ContactStore`, which holds `updateContactStatus`; the bookings collection is `Lifecycle.BookingStore`.

## Findings

| source | as written | input that shows it | evidently intended | confidence | as-written member | corrected member |
|---|---|---|---|---|---|---|
| index.js:52-55, 89-93 | the seeding middleware is registered after the four routers, so it runs only for requests that no route answers | a cold start with no users, then a request that a route answers (for example `POST /api/bookings`), with no store failure: the admin is not created | seeding runs before every request, as the comment at line 89 says | not executed; high, from Express's in-order middleware dispatch | AdminSeeding.AnsweredRequestsNeverSeed | AdminSeeding.DispatchSeedsOnFirstSuccess |
