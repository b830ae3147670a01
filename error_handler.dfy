/** The error-handling middleware: it turns whatever a handler passed to
    `next(err)` into an HTTP status and a `{success: false, error}` body.
    Three kinds of store error are recognised, checked in a fixed order so
    that a later match overrides an earlier one; any other error keeps its
    own status code (500 when it has none) and message. */
module ErrorHandler {
  import opened Common
  import opened Strings
  import opened Messages

  /** One entry of a validation error's `errors` object. */
  datatype FieldError = FieldError(path: string, message: Message)

  /** The properties of an error object the handler reads. `message` is
      the string every JavaScript error carries ("" when none was given);
      `value` is what a cast failed on; `keyValue` is the duplicated key of
      a unique-index violation; `errors` are a validation error's field
      errors in the order the store reported them. */
  datatype Err = Err(
    name: string,
    message: string,
    statusCode: Option<int>,
    code: Option<int>,
    value: string,
    keyValue: map<string, string>,
    errors: seq<FieldError>)

  /** `new ErrorResponse(message, statusCode)`, the error the handlers raise. */
  function ErrorResponse(message: string, statusCode: int): (e: Err)
    ensures e.name == "Error" && e.message == message && e.statusCode == Some(statusCode)
    ensures e.code.None? && e.errors == []
  {
    Err("Error", message, Some(statusCode), None, "", map[], [])
  }

  /** The `TypeError` JavaScript throws when a property is read from a
      missing object (e.g. `req.user.id` with no `req.user`). */
  function TypeError(message: string): (e: Err)
    ensures e.name == "TypeError" && e.statusCode.None? && e.code.None?
  {
    Err("TypeError", message, None, None, "", map[], [])
  }

  /** A store validation failure with its field errors. */
  function ValidationError(model: string, errors: seq<FieldError>): (e: Err)
    ensures e.name == "ValidationError" && e.errors == errors && e.statusCode.None?
  {
    Err("ValidationError", model + " validation failed", None, None, "", map[], errors)
  }

  /** A unique-index violation (store error code 11000). */
  function DuplicateKeyError(keyValue: map<string, string>): (e: Err)
    ensures e.code == Some(11000) && e.keyValue == keyValue && e.statusCode.None?
  {
    Err("MongoError", "E11000 duplicate key error", None, Some(11000), "", keyValue, [])
  }

  /** The response body `{success: false, error}`. */
  datatype ErrorBody = ErrorBody(success: bool, error: string)

  datatype ErrorReply = ErrorReply(status: int, body: ErrorBody)

  /** The working copy of the error the handler builds up. */
  datatype Working = Working(message: string, statusCode: Option<int>)

  const CastPrefix := "Não foi possível identificar o recurso de ID num: "
  const DuplicatePrefix := "Recurso não pode ser inserido, pois este está duplicado na base de dados, key duplicada: "
  const ServerErrorText := "Erro no servidor"

  /** The message for a failed cast: it ends with the offending value. */
  function CastMessage(value: string): (m: string)
    ensures |m| >= |value| && m[|m| - |value|..] == value
    ensures StartsWith(m, CastPrefix)
  {
    CastPrefix + value
  }

  /** The message for a duplicate key names the duplicated `name`
      ("undefined" when the key has no `name`). */
  function DuplicateMessage(keyValue: map<string, string>): (m: string)
    ensures StartsWith(m, DuplicatePrefix)
    ensures "name" in keyValue ==> m[|DuplicatePrefix|..] == keyValue["name"]
  {
    DuplicatePrefix + if "name" in keyValue then keyValue["name"] else "undefined"
  }

  /** Each field error's message with a space in front, in order. */
  function FieldMessages(errors: seq<FieldError>): (r: seq<string>)
    ensures |r| == |errors|
    ensures forall k :: 0 <= k < |errors| ==> r[k] == " " + Text(errors[k].message)
  {
    if |errors| == 0 then []
    else [" " + Text(errors[0].message)] + FieldMessages(errors[1..])
  }

  /** The message of `new ErrorResponse(list, 400)`: the `Error`
      constructor turns the list into text, its items joined by commas. */
  function ValidationText(errors: seq<FieldError>): (m: string)
    ensures errors == [] <==> m == ""
  {
    var parts := FieldMessages(errors);
    if parts == [] then "" else
      assert |parts[0]| > 0 && parts[0] == (parts[0] + [','] + Join(parts[1..], ','))[..|parts[0]|];
      Join(parts, ',')
  }

  /** `statusCode || 500`: a missing or zero status becomes 500. */
  function StatusOr500(statusCode: Option<int>): (s: int)
    ensures statusCode.Some? && statusCode.value != 0 ==> s == statusCode.value
    ensures statusCode.None? || statusCode.value == 0 ==> s == 500
  {
    match statusCode
    case Some(c) => if c != 0 then c else 500
    case None => 500
  }

  /** `errorHandler(err, req, res, next)`. */
  function Handle(err: Err): (r: ErrorReply)
    ensures !r.body.success
    // the validation check is the last one, so it wins over the other two;
    // a validation error without field errors has an empty message
    ensures err.name == "ValidationError" ==>
      r.status == 400
      && r.body.error == (if err.errors == [] then ServerErrorText else ValidationText(err.errors))
    // a duplicate key wins over a cast failure
    ensures err.name != "ValidationError" && err.code == Some(11000) ==>
      r.status == 400 && r.body.error == DuplicateMessage(err.keyValue)
    ensures err.name == "CastError" && err.code != Some(11000) ==>
      r.status == 404 && r.body.error == CastMessage(err.value)
    // anything else keeps its own status and message
    ensures err.name != "ValidationError" && err.name != "CastError" && err.code != Some(11000) ==>
      r.status == StatusOr500(err.statusCode)
      && r.body.error == (if err.message == "" then ServerErrorText else err.message)
  {
    var error := Working(err.message, err.statusCode);
    var error := if err.name == "CastError"
      then Working(CastMessage(err.value), Some(404)) else error;
    var error := if err.code == Some(11000)
      then Working(DuplicateMessage(err.keyValue), Some(400)) else error;
    var error := if err.name == "ValidationError"
      then Working(ValidationText(err.errors), Some(400)) else error;
    ErrorReply(StatusOr500(error.statusCode),
      ErrorBody(false, if error.message == "" then ServerErrorText else error.message))
  }

  /** When no field message contains a comma, the client can split the
      text back into the field messages, each with its leading space. */
  lemma ValidationTextSplits(errors: seq<FieldError>)
    requires errors != []
    requires forall k :: 0 <= k < |errors| ==> ',' !in Text(errors[k].message)
    ensures Split(ValidationText(errors), ',') == FieldMessages(errors)
  {
    var parts := FieldMessages(errors);
    forall k | 0 <= k < |parts| ensures ',' !in parts[k] {
      PrefixAvoids(" ", Text(errors[k].message), ',');
    }
    SplitJoin(parts, ',');
  }

  /** An error raised by a handler with a status comes back with that
      status and its message. */
  lemma HandleErrorResponse(message: string, status: int)
    requires status != 0 && message != ""
    ensures Handle(ErrorResponse(message, status)) == ErrorReply(status, ErrorBody(false, message))
  {
  }

  /** An error without status or message is reported as a server error. */
  lemma HandleBareError(name: string, errors: seq<FieldError>)
    requires name != "ValidationError" && name != "CastError"
    ensures Handle(Err(name, "", None, None, "", map[], errors)) == ErrorReply(500, ErrorBody(false, ServerErrorText))
  {
  }
}
