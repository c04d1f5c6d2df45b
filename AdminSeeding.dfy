/** The admin account the server seeds (index.js): a process-wide flag, checked
    each time the seeding middleware runs, and a lookup-then-create on the users
    collection. The middleware is registered after the routers, so only requests
    that no route answers reach it (see `DispatchAsWritten`). The environment variables are parameters, and so are the
    failures of the two store calls, which the code catches and logs. */
module AdminSeeding {
  import opened Wrappers
  import opened Documents
  import opened Users
  import opened Counting

  const DefaultAdminEmail := "admin@saricare.com"
  const AdminName := "Admin"
  const AdminMobile := "0000000000"
  const AdminGender := "Other"

  /** `process.env.ADMIN_EMAIL || 'admin@saricare.com'`: an unset and an empty
      variable both fall back to the default. */
  function AdminEmail(configured: Option<string>): (e: string)
    ensures e != ""
    ensures configured.Some? && configured.value != "" ==> e == configured.value
    ensures configured.None? || configured.value == "" ==> e == DefaultAdminEmail
  {
    if configured.Some? && configured.value != "" then configured.value else DefaultAdminEmail
  }

  /** The document `User.create` is given; the password is `ADMIN_PASSWORD` as it is. */
  function SeedUser(email: string, password: Option<string>, id: ObjectId, now: Timestamp): (u: User)
    ensures u.role == AdminRole && u.email == email && u.password == password
    ensures u.name == AdminName && u.mobile == AdminMobile && u.gender == AdminGender
    ensures u.id == id && u.createdAt == now
  {
    User(id, AdminName, email, password, AdminMobile, AdminGender, AdminRole, now)
  }

  /** Which of the two awaited store calls throws, if any. */
  datatype StoreFault = NoFault | LookupFails | CreateFails

  /** `User.findOne({ email })`: the first user with that email. */
  function FindByEmail(users: seq<User>, email: string): (r: Option<User>)
    ensures r.Some? <==> exists i :: 0 <= i < |users| && users[i].email == email
    ensures r.Some? ==> r.value in users && r.value.email == email
  {
    if users == [] then None
    else if users[0].email == email then Some(users[0])
    else FindByEmail(users[1..], email)
  }

  /** The seeding flag together with the users collection. */
  datatype SeedState = SeedState(seeded: bool, users: seq<User>)

  /** One call of `seedAdmin`. */
  function SeedStep(st: SeedState, configured: Option<string>, password: Option<string>,
                    fault: StoreFault, newId: ObjectId, now: Timestamp): (r: SeedState)
    // existing users are never changed; at most the admin document is appended
    ensures r.users == st.users ||
            r.users == st.users + [SeedUser(AdminEmail(configured), password, newId, now)]
    // the flag is never cleared, and it is set by every call whose store calls succeed
    ensures st.seeded ==> r.seeded
    ensures fault == NoFault ==> r.seeded
  {
    if st.seeded then st
    else if fault == LookupFails then st
    else if FindByEmail(st.users, AdminEmail(configured)).Some? then st.(seeded := true)
    else if fault == CreateFails then st
    else SeedState(true, st.users + [SeedUser(AdminEmail(configured), password, newId, now)])
  }

  /** Once the flag is set, a call does nothing at all. */
  lemma SeededIsNoOp(st: SeedState, configured: Option<string>, password: Option<string>,
                     fault: StoreFault, newId: ObjectId, now: Timestamp)
    requires st.seeded
    ensures SeedStep(st, configured, password, fault, newId, now) == st
  {
  }

  /** With no admin under the email, a successful call appends exactly the admin
      document and sets the flag. */
  lemma CreatesWhenAbsent(st: SeedState, configured: Option<string>, password: Option<string>,
                          newId: ObjectId, now: Timestamp)
    requires !st.seeded
    requires forall i :: 0 <= i < |st.users| ==> st.users[i].email != AdminEmail(configured)
    ensures var after := SeedStep(st, configured, password, NoFault, newId, now);
            after.seeded && after.users == st.users + [SeedUser(AdminEmail(configured), password, newId, now)]
  {
  }

  /** A user already holding the email is left as it is, whatever its role or
      password, and the flag is set; the create is never attempted. */
  lemma ExistingUserUntouched(st: SeedState, configured: Option<string>, password: Option<string>,
                              fault: StoreFault, newId: ObjectId, now: Timestamp)
    requires !st.seeded && fault != LookupFails
    requires exists i :: 0 <= i < |st.users| && st.users[i].email == AdminEmail(configured)
    ensures SeedStep(st, configured, password, fault, newId, now) == SeedState(true, st.users)
  {
  }

  /** The flag goes up exactly when the call gets through without a throw, and a
      call that throws leaves everything as it was, so the next request tries again. */
  lemma FlagSetOnlyOnSuccess(st: SeedState, configured: Option<string>, password: Option<string>,
                             fault: StoreFault, newId: ObjectId, now: Timestamp)
    requires !st.seeded
    ensures var after := SeedStep(st, configured, password, fault, newId, now);
            var found := FindByEmail(st.users, AdminEmail(configured)).Some?;
            && (after.seeded <==> fault == NoFault || (fault == CreateFails && found))
            && (!after.seeded ==> after == st)
  {
  }

  /** The invariant of the seeding: at most one user with the admin email, and
      exactly one once the flag is set. */
  ghost predicate SeedInvariant(st: SeedState, email: string) {
    Count(st.users, HasEmail(email)) <= 1 && (st.seeded ==> Count(st.users, HasEmail(email)) == 1)
  }

  lemma SeedStepKeepsInvariant(st: SeedState, configured: Option<string>, password: Option<string>,
                               fault: StoreFault, newId: ObjectId, now: Timestamp)
    requires SeedInvariant(st, AdminEmail(configured))
    ensures SeedInvariant(SeedStep(st, configured, password, fault, newId, now), AdminEmail(configured))
  {
    var email := AdminEmail(configured);
    if !st.seeded && fault == NoFault && FindByEmail(st.users, email).None? {
      CountAppend(st.users, SeedUser(email, password, newId, now), HasEmail(email));
    }
  }

  /** One request's worth of store behaviour: the fault, the generated id, the clock. */
  datatype SeedCall = SeedCall(fault: StoreFault, newId: ObjectId, now: Timestamp)

  /** `seedAdmin` run once per request, in order. */
  function SeedRun(st: SeedState, configured: Option<string>, password: Option<string>, calls: seq<SeedCall>): SeedState
    decreases |calls|
  {
    if calls == [] then st
    else
      SeedRun(SeedStep(st, configured, password, calls[0].fault, calls[0].newId, calls[0].now),
              configured, password, calls[1..])
  }

  /** However many requests arrive and whichever of them fail, the seeding never
      makes a second user with the admin email. */
  lemma {:induction false} SeedRunKeepsInvariant(st: SeedState, configured: Option<string>, password: Option<string>,
                                                 calls: seq<SeedCall>)
    requires SeedInvariant(st, AdminEmail(configured))
    ensures SeedInvariant(SeedRun(st, configured, password, calls), AdminEmail(configured))
    decreases |calls|
  {
    if calls != [] {
      SeedStepKeepsInvariant(st, configured, password, calls[0].fault, calls[0].newId, calls[0].now);
      SeedRunKeepsInvariant(SeedStep(st, configured, password, calls[0].fault, calls[0].newId, calls[0].now),
                            configured, password, calls[1..]);
    }
  }

  /** Starting from a fresh process, one request whose store calls do not throw is
      enough: afterwards the flag is set and exactly one user has the admin email. */
  lemma {:induction false} SeedRunSucceedsOnce(st: SeedState, configured: Option<string>, password: Option<string>,
                                               calls: seq<SeedCall>, k: nat)
    requires SeedInvariant(st, AdminEmail(configured))
    requires k < |calls| && calls[k].fault == NoFault
    ensures var after := SeedRun(st, configured, password, calls);
            after.seeded && Count(after.users, HasEmail(AdminEmail(configured))) == 1
    decreases |calls|
  {
    var next := SeedStep(st, configured, password, calls[0].fault, calls[0].newId, calls[0].now);
    SeedStepKeepsInvariant(st, configured, password, calls[0].fault, calls[0].newId, calls[0].now);
    if k == 0 {
      assert next.seeded;
      SeededRunIsNoOp(next, configured, password, calls[1..]);
    } else {
      SeedRunSucceedsOnce(next, configured, password, calls[1..], k - 1);
    }
  }

  /** Once seeded, any further requests leave the state as it is. */
  lemma {:induction false} SeededRunIsNoOp(st: SeedState, configured: Option<string>, password: Option<string>,
                                           calls: seq<SeedCall>)
    requires st.seeded
    ensures SeedRun(st, configured, password, calls) == st
    decreases |calls|
  {
    if calls != [] {
      SeededRunIsNoOp(SeedStep(st, configured, password, calls[0].fault, calls[0].newId, calls[0].now),
                      configured, password, calls[1..]);
    }
  }

  /** Two requests in a row, on a store without a second admin-email user: if
      either request's store calls go through, exactly one such user remains. */
  lemma TwoSequentialCalls(st: SeedState, configured: Option<string>, password: Option<string>,
                           first: SeedCall, second: SeedCall)
    requires !st.seeded && Count(st.users, HasEmail(AdminEmail(configured))) <= 1
    requires first.fault == NoFault || second.fault == NoFault
    ensures var after := SeedRun(st, configured, password, [first, second]);
            after.seeded && Count(after.users, HasEmail(AdminEmail(configured))) == 1
  {
    SeedRunSucceedsOnce(st, configured, password, [first, second], if first.fault == NoFault then 0 else 1);
  }

  // ---------------------------------------------------------------------------
  // Where the seeding middleware sits in the chain

  /** How the routers registered before a middleware deal with a request: a route
      answers it (or passes an error on, which skips plain middleware), or no route
      matches and the request falls through. */
  datatype RouteOutcome = Answered | Unmatched

  /** The chain as registered: the seeding middleware comes after the four routers,
      so it only sees requests that no route answered. */
  function DispatchAsWritten(st: SeedState, outcome: RouteOutcome, configured: Option<string>,
                             password: Option<string>, call: SeedCall): (r: SeedState)
    // a request that a route answers never changes the seeding state
    ensures r != st ==> outcome.Unmatched?
    // one that no route answers is seeded as the intended chain would seed it
    ensures outcome.Unmatched? ==> r == Dispatch(st, outcome, configured, password, call)
  {
    match outcome
    case Answered => st
    case Unmatched => SeedStep(st, configured, password, call.fault, call.newId, call.now)
  }

  /** The chain the comment on the middleware describes ("before handling requests"):
      seeding runs first, whatever route then handles the request. */
  function Dispatch(st: SeedState, outcome: RouteOutcome, configured: Option<string>,
                    password: Option<string>, call: SeedCall): (r: SeedState)
    // whatever route handles it, an unseeded process is seeded by the first
    // request whose store calls succeed
    ensures call.fault == NoFault ==> r.seeded
    ensures r.seeded ==> call.fault != LookupFails || st.seeded
  {
    SeedStep(st, configured, password, call.fault, call.newId, call.now)
  }

  /** Requests that all reach a route, passed through the chain as registered. */
  function AnsweredRun(st: SeedState, configured: Option<string>, password: Option<string>, calls: seq<SeedCall>): SeedState
    decreases |calls|
  {
    if calls == [] then st
    else AnsweredRun(DispatchAsWritten(st, Answered, configured, password, calls[0]), configured, password, calls[1..])
  }

  /** As registered, any number of requests that routes answer never seed the
      admin, even when no store call fails: a fresh process with an empty users
      collection stays unseeded. The discrepancy itself is in the definition of
      `DispatchAsWritten`, where an answered request never reaches `SeedStep`;
      this lemma only carries that one-request fact across a run of requests. */
  lemma {:induction false} AnsweredRequestsNeverSeed(st: SeedState, configured: Option<string>,
                                                     password: Option<string>, calls: seq<SeedCall>)
    ensures AnsweredRun(st, configured, password, calls) == st
    decreases |calls|
  {
    if calls != [] {
      AnsweredRequestsNeverSeed(DispatchAsWritten(st, Answered, configured, password, calls[0]),
                                configured, password, calls[1..]);
    }
  }

  /** The concrete case: a booking request on a cold start with an empty users
      collection. As registered the admin is not created; with seeding first it is. */
  lemma SeedingSkippedOnAnsweredRequest()
    ensures var call := SeedCall(NoFault, 1, 0);
            && !DispatchAsWritten(SeedState(false, []), Answered, None, None, call).seeded
            && Dispatch(SeedState(false, []), Answered, None, None, call)
               == SeedState(true, [SeedUser(DefaultAdminEmail, None, 1, 0)])
  {
  }

  /** With seeding first, the first request whose store calls go through seeds
      the admin, whichever route answers it. */
  lemma DispatchSeedsOnFirstSuccess(st: SeedState, outcome: RouteOutcome, configured: Option<string>,
                                    password: Option<string>, call: SeedCall)
    requires SeedInvariant(st, AdminEmail(configured)) && call.fault == NoFault
    ensures var after := Dispatch(st, outcome, configured, password, call);
            after.seeded && Count(after.users, HasEmail(AdminEmail(configured))) == 1
  {
    SeedStepKeepsInvariant(st, configured, password, call.fault, call.newId, call.now);
  }

  /** The module-level `adminSeeded` flag and the users collection it guards. */
  class AdminSeeder {
    var adminSeeded: bool
    var users: seq<User>

    /** A cold start: the flag is down; the collection holds what it already holds. */
    constructor (existing: seq<User>)
      ensures !adminSeeded && users == existing
    {
      adminSeeded := false;
      users := existing;
    }

    /** `seedAdmin`. A throw from either store call is caught: it is logged, and
        the flag stays down. */
    method SeedAdmin(configured: Option<string>, password: Option<string>,
                     fault: StoreFault, newId: ObjectId, now: Timestamp)
      modifies this
      ensures SeedState(adminSeeded, users)
              == SeedStep(SeedState(old(adminSeeded), old(users)), configured, password, fault, newId, now)
    {
      if adminSeeded {
        return;
      }
      var email := AdminEmail(configured);
      if fault == LookupFails {
        return;
      }
      var adminExists := FindByEmail(users, email);
      if adminExists.None? {
        if fault == CreateFails {
          return;
        }
        users := users + [SeedUser(email, password, newId, now)];
      }
      adminSeeded := true;
    }

    /** The seeding middleware itself, for a request that reaches it: seed, then
        always call `next()`, whether or not the seeding succeeded. */
    method SeedingMiddleware(configured: Option<string>, password: Option<string>,
                             fault: StoreFault, newId: ObjectId, now: Timestamp)
      returns (proceed: bool)
      modifies this
      ensures proceed
      ensures SeedState(adminSeeded, users)
              == SeedStep(SeedState(old(adminSeeded), old(users)), configured, password, fault, newId, now)
    {
      SeedAdmin(configured, password, fault, newId, now);
      proceed := true;
    }
  }
}
