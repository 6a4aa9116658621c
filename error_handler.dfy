/**
 * The server's last-resort error handler: an error record is turned into an HTTP
 * status and a `{success: false, message}` body by an ordered series of checks, each
 * of which, when it applies, replaces what the earlier ones decided.
 */
module ErrorHandler {
  import opened Common

  /**
   * The parts of a thrown error the handler looks at. `keyValueKeys` lists the keys of
   * a duplicate-key error's `keyValue`; `fieldMessages` the messages of a validation
   * error's `errors`, in order; `statusCode` is an own `statusCode` property, if any.
   */
  datatype ErrorRecord = ErrorRecord(
    name: string,
    code: Option<int>,
    keyValueKeys: seq<string>,
    fieldMessages: seq<string>,
    statusCode: Option<int>,
    message: string,
    stack: string)

  /** The handler's working copy of the error: a status (if any) and a message. */
  datatype Classified = Classified(statusCode: Option<int>, message: string)

  /** The reply: status and JSON body. */
  datatype ErrorReply = ErrorReply(status: int, success: bool, message: string, stack: Option<string>)

  const DuplicateKeyCode: int := 11000
  const FallbackStatus: int := 500
  const FallbackMessage: string := "Erro no servidor"
  const NotFoundMessage: string := "Recurso não encontrado"
  const InvalidTokenMessage: string := "Token inválido"
  const ExpiredTokenMessage: string := "Token expirado"

  /** The sum of the parts' lengths. */
  function TotalLength(parts: seq<string>): nat
  {
    if parts == [] then 0 else |parts[0]| + TotalLength(parts[1..])
  }

  /**
   * `Array.prototype.join`: the parts in order, one separator between neighbours, so the
   * result starts with the first part and adds |parts| - 1 separators to the parts' lengths.
   */
  function Join(parts: seq<string>, sep: string): (r: string)
    ensures parts == [] ==> r == ""
    ensures parts != [] ==> |r| == TotalLength(parts) + |sep| * (|parts| - 1)
    ensures parts != [] ==> parts[0] <= r
    ensures |parts| > 1 ==> parts[0] + sep <= r
  {
    if parts == [] then ""
    else if |parts| == 1 then parts[0]
    else
      var rest := Join(parts[1..], sep);
      var r := parts[0] + sep + rest;
      assert |sep| * (|parts| - 1) == |sep| + |sep| * (|parts| - 2);
      r
  }

  /** The first key of `keyValue`; an empty object yields `undefined`, printed as such. */
  function FirstKey(keys: seq<string>): string
  {
    if keys == [] then "undefined" else keys[0]
  }

  function DuplicateMessage(keys: seq<string>): string
  {
    FirstKey(keys) + " já existe"
  }

  /** The ordered checks; a later one that applies replaces what the earlier ones set. */
  function Classify(err: ErrorRecord): (e: Classified)
    ensures err.name == "TokenExpiredError" ==> e == Classified(Some(401), ExpiredTokenMessage)
    ensures err.name == "JsonWebTokenError" ==> e == Classified(Some(401), InvalidTokenMessage)
    ensures err.name == "CastError" ==> e == Classified(Some(404), NotFoundMessage)
    ensures (err.name !in {"CastError", "JsonWebTokenError", "TokenExpiredError"} && err.code == Some(DuplicateKeyCode)) ==>
      e == Classified(Some(400), DuplicateMessage(err.keyValueKeys))
    ensures err.name == "ValidationError" && err.code != Some(DuplicateKeyCode) ==>
      e == Classified(Some(400), Join(err.fieldMessages, ", "))
    ensures (err.name !in {"ValidationError", "CastError", "JsonWebTokenError", "TokenExpiredError"} &&
             err.code != Some(DuplicateKeyCode)) ==> e == Classified(err.statusCode, err.message)
  {
    var e0 := Classified(err.statusCode, err.message);
    var e1 := if err.name == "ValidationError" then Classified(Some(400), Join(err.fieldMessages, ", ")) else e0;
    var e2 := if err.code == Some(DuplicateKeyCode) then Classified(Some(400), DuplicateMessage(err.keyValueKeys)) else e1;
    var e3 := if err.name == "CastError" then Classified(Some(404), NotFoundMessage) else e2;
    var e4 := if err.name == "JsonWebTokenError" then Classified(Some(401), InvalidTokenMessage) else e3;
    if err.name == "TokenExpiredError" then Classified(Some(401), ExpiredTokenMessage) else e4
  }

  /**
   * The reply: the classified status unless it is absent or 0, else 500; the classified
   * message unless it is empty, else the generic one; never a success; the stack only
   * in development.
   */
  function HandleError(err: ErrorRecord, development: bool): (r: ErrorReply)
    ensures !r.success
    ensures r.stack.Some? <==> development
    ensures r.stack.Some? ==> r.stack.value == err.stack
    ensures r.message != ""
    ensures r.status == FallbackStatus <==> Classify(err).statusCode in {None, Some(0), Some(FallbackStatus)}
    ensures r.message == FallbackMessage <==> Classify(err).message in {"", FallbackMessage}
    ensures Classify(err).statusCode.Some? && Classify(err).statusCode.value != 0 ==>
      r.status == Classify(err).statusCode.value
    ensures Classify(err).message != "" ==> r.message == Classify(err).message
  {
    var e := Classify(err);
    ErrorReply(
      if e.statusCode.Some? && e.statusCode.value != 0 then e.statusCode.value else FallbackStatus,
      false,
      if e.message != "" then e.message else FallbackMessage,
      if development then Some(err.stack) else None)
  }

  /** A joined list of field messages is empty exactly when there is nothing to show. */
  lemma JoinEmpty(parts: seq<string>, sep: string)
    requires sep != ""
    ensures Join(parts, sep) == "" <==> parts == [] || (|parts| == 1 && parts[0] == "")
  {
  }

  /**
   * A validation error is a 400 carrying every field message joined by ", ", falling
   * back to the generic message only when there is nothing to join.
   */
  lemma ValidationErrorReply(err: ErrorRecord, development: bool)
    requires err.name == "ValidationError" && err.code != Some(DuplicateKeyCode)
    ensures HandleError(err, development).status == 400
    ensures HandleError(err, development).message ==
      if err.fieldMessages == [] || (|err.fieldMessages| == 1 && err.fieldMessages[0] == "")
      then FallbackMessage else Join(err.fieldMessages, ", ")
  {
    JoinEmpty(err.fieldMessages, ", ");
  }

  /** Both token errors are 401, with different messages. */
  lemma TokenErrorsDiffer(a: ErrorRecord, b: ErrorRecord, development: bool)
    requires a.name == "JsonWebTokenError" && b.name == "TokenExpiredError"
    ensures HandleError(a, development).status == HandleError(b, development).status == 401
    ensures HandleError(a, development).message != HandleError(b, development).message
  {
  }

  /** A name check later in the series overrides the duplicate-key check: a cast error with code 11000 is a 404. */
  lemma LaterCheckWins(err: ErrorRecord, development: bool)
    requires err.name == "CastError" && err.code == Some(DuplicateKeyCode)
    ensures HandleError(err, development) ==
      ErrorReply(404, false, NotFoundMessage, if development then Some(err.stack) else None)
  {
  }

  /** An error the handler does not recognise keeps its own non-zero status and non-empty message. */
  lemma UnrecognisedErrorKept(err: ErrorRecord, development: bool)
    requires err.name !in {"ValidationError", "CastError", "JsonWebTokenError", "TokenExpiredError"}
    requires err.code != Some(DuplicateKeyCode)
    ensures HandleError(err, development).status ==
      if err.statusCode.Some? && err.statusCode.value != 0 then err.statusCode.value else FallbackStatus
    ensures HandleError(err, development).message == if err.message != "" then err.message else FallbackMessage
  {
  }
}
