/**
 * The errors that reach the error handlers, and the handlers themselves:
 * `handleMongooseError` and its copy `handleClientError`, which classify a
 * database error into status, message and per-field messages, and the
 * global Express error handler, which builds the JSON error envelope.
 */
module Errors {
  import opened Api
  import opened Text

  /** One `{path, message}` entry of a Mongoose validation error. */
  datatype FieldError = FieldError(path: string, message: string)

  /** One entry of `errorMessages` in a response. */
  datatype ErrorMessage = ErrorMessage(path: string, message: string)

  /**
   * What a service or middleware can throw.  `Other` is any remaining Error
   * object, with its `name`, its numeric `code` if it has one (MongoDB puts
   * 11000 there for a unique-index violation) and the keys of its `keyValue`.
   */
  datatype Thrown =
    | MongooseValidation(fieldErrors: seq<FieldError>, message: string)
    | MongooseCast(path: string, message: string)
    | ZodFailure(issues: seq<string>, message: string)
    | ApiErr(status: Option<int>, message: string)
    | Jwt(expired: bool, message: string)
    | Other(name: string, code: Option<int>, keyValue: seq<string>, message: string)
  {
    /** `error.code`: only plain Error objects carry one. */
    function Code(): Option<int>
    {
      if Other? then code else None
    }

    /** `error.name`. */
    function Name(): string
    {
      match this
      case MongooseValidation(_, _) => "ValidationError"
      case MongooseCast(_, _) => "CastError"
      case ZodFailure(_, _) => "ZodError"
      case ApiErr(_, _) => "Error"
      case Jwt(expired, _) => if expired then "TokenExpiredError" else "JsonWebTokenError"
      case Other(name, _, _, _) => name
    }
  }

  /** The error services throw: `new ApiError(status, message)`. */
  function ApiThrown(e: ApiError): Thrown
  {
    ApiErr(Some(e.status), e.message)
  }

  /** A plain `new Error(message)`. */
  function PlainError(message: string): Thrown
  {
    Other("Error", None, [], message)
  }

  /** The MongoDB error for a second document with the same value of a unique key. */
  function DuplicateKey(key: string): Thrown
  {
    Other("MongoServerError", Some(11000), [key], "E11000 duplicate key error")
  }

  /** The Mongoose error for an id that is not an ObjectId. */
  function CastToObjectId(id: string, model: string): Thrown
  {
    MongooseCast("_id", "Cast to ObjectId failed for value \"" + id + "\" (type string) at path \"_id\" for model \"" + model + "\"")
  }

  /** What the two handlers return. */
  datatype Simplified = Simplified(statusCode: int, message: string, errorMessages: seq<ErrorMessage>)

  const DUPLICATE_CODE: int := 11000

  /** `Object.values(error.errors).map(err => ({path, message}))`. */
  function FieldMessages(errs: seq<FieldError>): (r: seq<ErrorMessage>)
    ensures |r| == |errs|
    ensures forall i :: 0 <= i < |errs| ==> r[i] == ErrorMessage(errs[i].path, errs[i].message)
  {
    if errs == [] then []
    else [ErrorMessage(errs[0].path, errs[0].message)] + FieldMessages(errs[1..])
  }

  /** `Object.keys(error.keyValue).map(key => ({path: key, message: key + " must be unique."}))`. */
  function KeyMessages(keys: seq<string>): (r: seq<ErrorMessage>)
    ensures |r| == |keys|
    ensures forall i :: 0 <= i < |keys| ==> r[i] == ErrorMessage(keys[i], keys[i] + " must be unique.")
  {
    if keys == [] then []
    else [ErrorMessage(keys[0], keys[0] + " must be unique.")] + KeyMessages(keys[1..])
  }

  /** `errorMessages: errors.length ? errors : [{path: "", message}]`. */
  function WithFallback(errors: seq<ErrorMessage>, message: string): (r: seq<ErrorMessage>)
    ensures r != []
    ensures errors != [] ==> r == errors
  {
    if |errors| > 0 then errors else [ErrorMessage("", message)]
  }

  /** `handleMongooseError(error)`: the branches in order; the first that matches decides. */
  function HandleMongooseError(error: Thrown): (r: Simplified)
    ensures r.errorMessages != []
    ensures r.statusCode in {400, 404, 409, 500}
  {
    var (statusCode, message, errors) :=
      if error.MongooseValidation? then
        (400, "Validation failed.", FieldMessages(error.fieldErrors))
      else if error.MongooseCast? then
        var m := "Invalid value for " + error.path + ".";
        (400, m, [ErrorMessage(error.path, m)])
      else if error.Code() == Some(DUPLICATE_CODE) then
        (409, "Duplicate key error.", KeyMessages(error.keyValue))
      else if error.Name() == "DocumentNotFoundError" then
        (404, "Requested document not found.", [ErrorMessage("", "Requested document not found.")])
      else if error.Name() == "MongoServerError" then
        (500, "Database server error.", [])
      else
        (500, "An unexpected error occurred.", []);
    Simplified(statusCode, message, WithFallback(errors, message))
  }

  /** `handleClientError(error)`: the same classification, written out again in its own file. */
  function HandleClientError(error: Thrown): (r: Simplified)
    ensures r.errorMessages != []
  {
    var (statusCode, message, errors) :=
      if error.MongooseValidation? then
        (400, "Validation failed.", FieldMessages(error.fieldErrors))
      else if error.MongooseCast? then
        (400, "Invalid value for " + error.path + ".", [ErrorMessage(error.path, "Invalid value for " + error.path + ".")])
      else if error.Code() == Some(DUPLICATE_CODE) then
        (409, "Duplicate key error.", KeyMessages(error.keyValue))
      else if error.Name() == "DocumentNotFoundError" then
        (404, "Requested document not found.", [ErrorMessage("", "Requested document not found.")])
      else if error.Name() == "MongoServerError" then
        (500, "Database server error.", [])
      else
        (500, "An unexpected error occurred.", []);
    Simplified(statusCode, message, WithFallback(errors, message))
  }

  /** The two handlers agree on every error. */
  lemma ClientMatchesMongoose(error: Thrown)
    ensures HandleClientError(error) == HandleMongooseError(error)
  {
  }

  /** A validation error: 400 and one entry per field error, in order. */
  lemma ValidationErrorEntries(fieldErrors: seq<FieldError>, message: string)
    requires fieldErrors != []
    ensures var r := HandleMongooseError(MongooseValidation(fieldErrors, message));
      && r.statusCode == 400 && r.message == "Validation failed."
      && |r.errorMessages| == |fieldErrors|
      && forall i :: 0 <= i < |fieldErrors| ==>
           r.errorMessages[i].path == fieldErrors[i].path && r.errorMessages[i].message == fieldErrors[i].message
  {
  }

  /** A cast error: 400 and "Invalid value for <path>.". */
  lemma CastErrorEntry(path: string, message: string)
    ensures HandleMongooseError(MongooseCast(path, message))
      == Simplified(400, "Invalid value for " + path + ".", [ErrorMessage(path, "Invalid value for " + path + ".")])
  {
  }

  /** A unique-index violation: 409 and "<key> must be unique." for each duplicated key. */
  lemma DuplicateEntries(name: string, keys: seq<string>, message: string)
    requires keys != []
    ensures var r := HandleMongooseError(Other(name, Some(DUPLICATE_CODE), keys, message));
      && r.statusCode == 409
      && |r.errorMessages| == |keys|
      && forall i :: 0 <= i < |keys| ==> r.errorMessages[i] == ErrorMessage(keys[i], keys[i] + " must be unique.")
  {
  }

  /** The code test comes before the name tests: a MongoServerError with code 11000 is a 409. */
  lemma CodeBeforeName(keys: seq<string>, message: string)
    ensures HandleMongooseError(Other("MongoServerError", Some(DUPLICATE_CODE), keys, message)).statusCode == 409
    ensures HandleMongooseError(Other("MongoServerError", None, keys, message))
      == Simplified(500, "Database server error.", [ErrorMessage("", "Database server error.")])
  {
  }

  /** DocumentNotFoundError is a 404; an error no branch matches is a 500 with the fallback entry. */
  lemma OtherStatuses(code: Option<int>, keys: seq<string>, message: string)
    requires code != Some(DUPLICATE_CODE)
    ensures HandleMongooseError(Other("DocumentNotFoundError", code, keys, message)).statusCode == 404
    ensures HandleMongooseError(PlainError(message))
      == Simplified(500, "An unexpected error occurred.", [ErrorMessage("", "An unexpected error occurred.")])
  {
  }

  /** The JSON body the global handler sends; `stack` is None when it is left undefined. */
  datatype Envelope = Envelope(
    success: bool, statusCode: int, message: string,
    errorMessages: seq<ErrorMessage>, stack: Option<string>)

  /**
   * `globalErrorHandler`.  `handleZodError` is not part of this model, so the
   * ZodError branch takes it as the parameter `zodHandler`; `stack` is the
   * error's stack trace and `originalUrl` the request's.
   */
  function GlobalErrorHandler(
    error: Thrown, stack: string, originalUrl: string, env: string,
    zodHandler: Thrown -> Simplified): (r: Envelope)
    ensures !r.success
    ensures r.stack.Some? <==> env == "development"
    ensures r.stack.Some? ==> r.stack.value == stack
  {
    var (statusCode, message, errorMessages) :=
      if error.MongooseValidation? then
        var s := HandleMongooseError(error);
        (s.statusCode, s.message, s.errorMessages)
      else if error.ZodFailure? then
        var s := zodHandler(error);
        (s.statusCode, s.message, s.errorMessages)
      else if error.ApiErr? then
        (if error.status.Some? then error.status.value else 500,
         error.message,
         if error.message != "" then [ErrorMessage(originalUrl, error.message)] else [])
      else
        var m := if error.message != "" then error.message else "An unexpected error occurred";
        (500, m, [ErrorMessage(originalUrl, m)]);
    Envelope(false, statusCode, message, errorMessages,
      if env == "development" then Some(stack) else None)
  }

  /** An ApiError keeps its status (500 when it has none) and message; the entry exists iff the message is non-empty. */
  lemma ApiErrorEnvelope(status: Option<int>, message: string, stack: string, url: string, env: string,
                         zodHandler: Thrown -> Simplified)
    ensures var r := GlobalErrorHandler(ApiErr(status, message), stack, url, env, zodHandler);
      && r.statusCode == (if status.Some? then status.value else 500)
      && r.message == message
      && (r.errorMessages == [] <==> message == "")
      && (message != "" ==> r.errorMessages == [ErrorMessage(url, message)])
  {
  }

  /** Everything that is not a validation, zod or API error answers 500 with its own message. */
  lemma OtherErrorsAre500(error: Thrown, stack: string, url: string, env: string, zodHandler: Thrown -> Simplified)
    requires !error.MongooseValidation? && !error.ZodFailure? && !error.ApiErr?
    ensures var r := GlobalErrorHandler(error, stack, url, env, zodHandler);
      && r.statusCode == 500
      && (error.message != "" ==> r.message == error.message)
      && (error.message == "" ==> r.message == "An unexpected error occurred")
      && r.errorMessages == [ErrorMessage(url, r.message)]
  {
  }

  /** A Mongoose validation error is answered exactly as `handleMongooseError` classifies it. */
  lemma ValidationGoesThroughMongooseHandler(fieldErrors: seq<FieldError>, message: string, stack: string,
                                             url: string, env: string, zodHandler: Thrown -> Simplified)
    ensures var error := MongooseValidation(fieldErrors, message);
      var r := GlobalErrorHandler(error, stack, url, env, zodHandler);
      var s := HandleMongooseError(error);
      r.statusCode == s.statusCode == 400 && r.message == s.message && r.errorMessages == s.errorMessages
  {
  }

  /** A cast error is not routed to `handleMongooseError`: the global handler answers 500 with its message. */
  lemma CastErrorIs500(path: string, message: string, stack: string, url: string, env: string,
                       zodHandler: Thrown -> Simplified)
    requires message != ""
    ensures GlobalErrorHandler(MongooseCast(path, message), stack, url, env, zodHandler).statusCode == 500
    ensures GlobalErrorHandler(MongooseCast(path, message), stack, url, env, zodHandler).message == message
  {
  }
}
