/** The application's single error handler: it turns a thrown error and the
    status already set on the response into the status code and JSON body sent. */
module ErrorMiddleware {
  import opened Wrappers

  /** The properties of a thrown error that the handler reads. `fieldMessages`
      are the `message`s of `err.errors` in their enumeration order. */
  datatype ErrorValue = ErrorValue(
    name: string,
    kind: Option<string>,
    code: Option<int>,
    message: string,
    fieldMessages: seq<string>,
    stack: string)

  /** The status code sent and the JSON body `{message, stack}`; `stack: None` is `null`. */
  datatype ErrorResponse = ErrorResponse(status: int, message: string, stack: Option<string>)

  const ResourceNotFound := "Resource not found"
  const DuplicateFieldValue := "Duplicate field value entered"
  const DuplicateKeyCode := 11000

  // ---------------------------------------------------------------------------
  // `.join(', ')`

  function JoinMessages(ms: seq<string>): (r: string)
    ensures ms == [] ==> r == ""
    // the first message leads the joined text, and a single message is not decorated
    ensures ms != [] ==> ms[0] <= r
    ensures |ms| == 1 ==> r == ms[0]
  {
    if ms == [] then ""
    else if |ms| == 1 then ms[0]
    else ms[0] + ", " + JoinMessages(ms[1..])
  }

  /** Joining two non-empty lists is joining each and putting one separator between them. */
  lemma {:induction false} JoinAppend(a: seq<string>, b: seq<string>)
    requires a != [] && b != []
    ensures JoinMessages(a + b) == JoinMessages(a) + ", " + JoinMessages(b)
  {
    if |a| == 1 {
      assert (a + b)[1..] == b;
    } else {
      assert (a + b)[1..] == a[1..] + b;
      JoinAppend(a[1..], b);
    }
  }

  /** The joined message is empty only when there is nothing or a single empty message to join. */
  lemma {:induction false} JoinEmptyIff(ms: seq<string>)
    ensures JoinMessages(ms) == "" <==> (ms == [] || ms == [""])
  {
    if |ms| > 1 {
      assert |JoinMessages(ms)| >= 2;
    }
  }

  /** The length of the joined message: every message plus one separator between neighbours. */
  function TotalLength(ms: seq<string>): nat {
    if ms == [] then 0 else |ms[0]| + TotalLength(ms[1..])
  }

  lemma {:induction false} JoinLength(ms: seq<string>)
    requires ms != []
    ensures |JoinMessages(ms)| == TotalLength(ms) + 2 * (|ms| - 1)
  {
    if |ms| > 1 {
      JoinLength(ms[1..]);
    }
  }

  // ---------------------------------------------------------------------------
  // The handler

  predicate IsObjectIdCast(err: ErrorValue) {
    err.name == "CastError" && err.kind == Some("ObjectId")
  }

  predicate IsDuplicateKey(err: ErrorValue) {
    err.code == Some(DuplicateKeyCode)
  }

  predicate IsValidation(err: ErrorValue) {
    err.name == "ValidationError"
  }

  /** The status the handler starts from: the response's own, or 500 when none is set
      (`incoming == 0`); a 200 left over from a successful path is never sent. */
  function FallbackStatus(incoming: int): (s: int)
    ensures s != 200
    ensures incoming != 0 && incoming != 200 ==> s == incoming
    ensures incoming == 0 || incoming == 200 ==> s == 500
  {
    var s := if incoming != 0 then incoming else 500;
    if s == 200 then 500 else s
  }

  /** `errorHandler`: the rules are tried in order and a later match overrides an
      earlier one, so the last rule that matches decides status and message. */
  method HandleError(incoming: int, err: ErrorValue, nodeEnv: Option<string>) returns (r: ErrorResponse)
    ensures IsValidation(err) ==>
              r.status == 400 && r.message == JoinMessages(err.fieldMessages)
    ensures !IsValidation(err) && IsDuplicateKey(err) ==>
              r.status == 400 && r.message == DuplicateFieldValue
    ensures !IsValidation(err) && !IsDuplicateKey(err) && IsObjectIdCast(err) ==>
              r.status == 404 && r.message == ResourceNotFound
    ensures !IsValidation(err) && !IsDuplicateKey(err) && !IsObjectIdCast(err) ==>
              r.status == FallbackStatus(incoming) && r.message == err.message
    ensures r.status != 200
    ensures r.stack.None? <==> nodeEnv == Some("production")
    ensures r.stack.Some? ==> r.stack.value == err.stack
  {
    var statusCode := if incoming != 0 then incoming else 500;
    var message := err.message;

    if IsObjectIdCast(err) {
      statusCode := 404;
      message := ResourceNotFound;
    }

    if IsDuplicateKey(err) {
      statusCode := 400;
      message := DuplicateFieldValue;
    }

    if IsValidation(err) {
      statusCode := 400;
      message := JoinMessages(err.fieldMessages);
    }

    if statusCode == 200 {
      statusCode := 500;
    }

    var stack := if nodeEnv == Some("production") then None else Some(err.stack);
    r := ErrorResponse(statusCode, message, stack);
  }

  // ---------------------------------------------------------------------------
  // What the controllers throw, and what reaches the client

  /** The failures of the modelled controllers. */
  datatype Fault =
    | NotFound(message: string)     // `res.status(404); throw new Error(message)`
    | Invalid(messages: seq<string>) // the store's ValidationError on save
    | DuplicateKey                   // the store's unique-index violation

  /** Express's status code before any handler sets one. */
  const DefaultStatus := 200

  /** The response status at the moment of the throw, and the error thrown. The
      `message`s given to the store's own errors are replaced by the handler, so
      their wording is not modelled. */
  function Raise(f: Fault, stack: string): (r: (int, ErrorValue))
    // only the controllers' not-found paths set a status before throwing
    ensures r.0 == (if f.NotFound? then 404 else DefaultStatus)
    ensures f.NotFound? ==> r.1.message == f.message && r.1.name == "Error" && r.1.code.None?
    // the store's errors carry what the handler keys on
    ensures f.Invalid? ==> r.1.name == "ValidationError" && r.1.fieldMessages == f.messages
    ensures f.DuplicateKey? ==> r.1.code == Some(DuplicateKeyCode) && r.1.name != "ValidationError"
  {
    match f
    case NotFound(m) => (404, ErrorValue("Error", None, None, m, [], stack))
    case Invalid(ms) => (DefaultStatus, ErrorValue("ValidationError", None, None, "validation failed", ms, stack))
    case DuplicateKey => (DefaultStatus, ErrorValue("MongoServerError", None, Some(DuplicateKeyCode), "duplicate key error", [], stack))
  }

  /** A controller failure, through the handler, to the client. */
  method RespondToFault(f: Fault, stack: string, nodeEnv: Option<string>) returns (r: ErrorResponse)
    ensures f.NotFound? ==> r.status == 404 && r.message == f.message
    ensures f.Invalid? ==> r.status == 400 && r.message == JoinMessages(f.messages)
    ensures f.DuplicateKey? ==> r.status == 400 && r.message == DuplicateFieldValue
    ensures r.stack.None? <==> nodeEnv == Some("production")
  {
    var (incoming, err) := Raise(f, stack);
    r := HandleError(incoming, err, nodeEnv);
  }
}
