/** The backend's error type `ErrorHandler` and the Express error middleware
    that turns every error reaching it into a `{success: false, message}`
    reply with an HTTP status (Backend/middlewares/errorMiddleware.js). */
module ErrorMiddleware {
  import opened Common

  /** An error as the middleware sees it. An empty `message`, a zero
      `statusCode` and a zero `code` stand for fields the error object does
      not have; `errors` is the list of per-field messages of a Mongoose
      validation error, in the order Mongoose reports them. */
  datatype AppError = AppError(
    name: string,
    message: string,
    statusCode: nat,
    code: int,
    keyValue: seq<string>,
    path: string,
    errors: Option<seq<string>>)

  /** What a handler sends back: a success with its status and message, or
      the middleware's `{success: false, message}` with its status.
      `Unanswered` is a request whose handler is still waiting: the
      appointment-number generator has not yet drawn a free number. */
  datatype Reply =
    | Success(status: nat, message: string)
    | Failure(status: nat, message: string)
    | Unanswered

  const DefaultMessage: string := "Internal Server Error"
  const DuplicateKeyCode: int := 11000

  /** `new ErrorHandler(message, statusCode)`: a plain `Error` carrying a
      status code. */
  function Handler(message: string, statusCode: nat): (e: AppError)
    ensures e.name == "Error" && e.errors.None? && e.code != DuplicateKeyCode
    ensures e.message == message && e.statusCode == statusCode
  {
    AppError("Error", message, statusCode, 0, [], "", None)
  }

  /** One failing path of a Mongoose validation. */
  datatype FieldError = FieldError(path: string, message: string)

  function FieldMessages(errs: seq<FieldError>): (ms: seq<string>)
    ensures |ms| == |errs|
    ensures forall i :: 0 <= i < |errs| ==> ms[i] == errs[i].message
  {
    if errs == [] then [] else [errs[0].message] + FieldMessages(errs[1..])
  }

  function FieldSummaries(errs: seq<FieldError>): (ms: seq<string>)
    ensures |ms| == |errs|
    ensures forall i :: 0 <= i < |errs| ==> ms[i] == errs[i].path + ": " + errs[i].message
  {
    if errs == [] then [] else [errs[0].path + ": " + errs[0].message] + FieldSummaries(errs[1..])
  }

  /** The `ValidationError` Mongoose throws from `create`, `save` or a
      validated update: no status code, a summary message and one entry per
      failing path. */
  function ValidationFailure(model: string, errs: seq<FieldError>): (e: AppError)
    ensures e.name == "ValidationError" && e.statusCode == 0 && e.code != DuplicateKeyCode
    ensures e.errors == Some(FieldMessages(errs))
  {
    AppError("ValidationError", model + " validation failed: " + Join(FieldSummaries(errs), ", "),
             0, 0, [], "", Some(FieldMessages(errs)))
  }

  /** Lines 10-11: an absent message or status code is filled in. */
  function WithDefaults(err: AppError): (e: AppError)
    ensures e.message != "" && e.statusCode != 0
    ensures err.message != "" ==> e.message == err.message
    ensures err.statusCode != 0 ==> e.statusCode == err.statusCode
    ensures e.name == err.name && e.code == err.code && e.keyValue == err.keyValue
    ensures e.path == err.path && e.errors == err.errors
  {
    err.(message := if err.message == "" then DefaultMessage else err.message,
         statusCode := if err.statusCode == 0 then 500 else err.statusCode)
  }

  /** Lines 13-28: duplicate keys, the two token errors and cast errors are
      replaced by a fresh `ErrorHandler` with status 400. A replacement is
      named "Error", so the later tests never fire on it. */
  function Remap(err: AppError): AppError {
    var e1 := if err.code == DuplicateKeyCode
              then Handler("Duplicate " + Join(err.keyValue, ",") + " Entered", 400) else err;
    var e2 := if e1.name == "JsonWebTokenError"
              then Handler("Json Web Token is Invalid, Try Again!!!", 400) else e1;
    var e3 := if e2.name == "TokenExpiredError"
              then Handler("Json Web Token is Expired, Try Again!!!", 400) else e2;
    if e3.name == "CastError"
    then Handler("Resource not found, Invalid: " + e3.path, 400) else e3
  }

  predicate IsRemapped(err: AppError) {
    err.code == DuplicateKeyCode || err.name in {"JsonWebTokenError", "TokenExpiredError", "CastError"}
  }

  /** `errorMiddleware(err)`: the status and message of the reply. */
  function Normalize(err: AppError): (r: Reply)
    ensures r.Failure? && r.status != 0 && r.message != ""
  {
    var e := Remap(WithDefaults(err));
    var message := match e.errors
      case Some(ms) => Join(ms, " ")
      case None => e.message;
    Failure(e.statusCode, if message == "" then DefaultMessage else message)
  }

  /** The middleware case by case: the four remapped kinds become 400s
      with their fixed messages; any other error keeps its status (500 when
      it has none) and shows its per-field messages when it has them, its
      own message otherwise. */
  lemma NormalizeCases(err: AppError)
    ensures err.code == DuplicateKeyCode ==>
      Normalize(err) == Failure(400, "Duplicate " + Join(err.keyValue, ",") + " Entered")
    ensures err.code != DuplicateKeyCode && err.name == "JsonWebTokenError" ==>
      Normalize(err) == Failure(400, "Json Web Token is Invalid, Try Again!!!")
    ensures err.code != DuplicateKeyCode && err.name == "TokenExpiredError" ==>
      Normalize(err) == Failure(400, "Json Web Token is Expired, Try Again!!!")
    ensures err.code != DuplicateKeyCode && err.name == "CastError" ==>
      Normalize(err) == Failure(400, "Resource not found, Invalid: " + err.path)
    ensures !IsRemapped(err) ==> Normalize(err).status == (if err.statusCode == 0 then 500 else err.statusCode)
    ensures !IsRemapped(err) && err.errors.Some? && Join(err.errors.value, " ") != "" ==>
      Normalize(err).message == Join(err.errors.value, " ")
    ensures !IsRemapped(err) && err.errors.None? && err.message != "" ==> Normalize(err).message == err.message
  {
  }

  /** `next(new ErrorHandler(message, statusCode))` as the client sees it:
      the handlers' own refusals, whose form `HandlerRoundTrip` derives from
      the middleware. */
  function Reject(message: string, statusCode: nat): Reply {
    Failure(if statusCode == 0 then 500 else statusCode, if message == "" then DefaultMessage else message)
  }

  /** A route's `:id` as it arrives: an ObjectId, or a string that is not
      one. */
  datatype RouteId = ObjectId(id: Id) | NotObjectId(text: string)

  /** The `CastError` Mongoose throws when a query on `model` is given an
      `_id` that is not an ObjectId. */
  function IdCastError(text: string, model: string): (e: AppError)
    ensures e.name == "CastError" && e.path == "_id" && e.code != DuplicateKeyCode
  {
    AppError("CastError",
      "Cast to ObjectId failed for value \"" + text + "\" (type string) at path \"_id\" for model \"" + model + "\"",
      0, 0, [], "_id", None)
  }

  /** A handler that looks a malformed `:id` up answers 400 naming `_id`,
      whatever the value and the model. */
  lemma IdCastErrorIs400(text: string, model: string)
    ensures Normalize(IdCastError(text, model)) == Failure(400, "Resource not found, Invalid: _id")
  {
    NormalizeCases(IdCastError(text, model));
  }

  /** An `ErrorHandler` passes the middleware untouched: its message and
      status reach the client, and without them it becomes a 500 "Internal
      Server Error". */
  lemma HandlerRoundTrip(message: string, statusCode: nat)
    ensures Reject(message, statusCode) == Normalize(Handler(message, statusCode))
  {
  }

  /** Every reply of the middleware has status 400 or the error's own
      status (500 when it has none). */
  lemma StatusIsRemappedOrOwn(err: AppError)
    ensures Normalize(err).status == 400
         || Normalize(err).status == (if err.statusCode == 0 then 500 else err.statusCode)
  {
  }

  /** A Mongoose validation error has no status code, so it reaches the
      client as a 500 whose message is its per-field messages joined by one
      space, never its summary message. */
  lemma ValidationFailureIs500(model: string, errs: seq<FieldError>)
    ensures Normalize(ValidationFailure(model, errs)).status == 500
    ensures errs != [] && errs[0].message != "" ==>
      Normalize(ValidationFailure(model, errs)) == Failure(500, Join(FieldMessages(errs), " "))
  {
    if errs != [] && errs[0].message != "" {
      JoinNonEmpty(FieldMessages(errs), " ");
    }
  }

  lemma {:induction false} JoinNonEmpty(parts: seq<string>, sep: string)
    requires parts != [] && parts[0] != ""
    ensures Join(parts, sep) != ""
  {
    if |parts| > 1 {
      assert Join(parts, sep)[0] == parts[0][0];
    }
  }
}
