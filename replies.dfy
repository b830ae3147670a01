/** What the course and review handlers send back, and the ownership test
    they share. */
module Replies {
  import opened Common
  import opened ErrorHandler
  import opened AdvancedResults

  /** A handler's response: `{success: true, data}`, an envelope, a bare
      `{success: true}`, or an error passed to `next` and rendered by the
      error handler. */
  datatype Reply<D> =
    | Data(status: int, data: D)
    | Listing(status: int, envelope: Envelope<D>)
    | Done(status: int)
    | Error(reply: ErrorReply)

  /** An error response with a status and message. */
  function ErrorOf<D>(status: int, message: string): Reply<D> {
    Error(ErrorReply(status, ErrorBody(false, message)))
  }

  /** `next(err)`. */
  function Fail<D>(err: Err): (r: Reply<D>)
    ensures r.Error? && !r.reply.body.success
  {
    Error(Handle(err))
  }

  /** `next(new ErrorResponse(message, status))` renders as that status and
      message. */
  lemma FailWithResponse<D>(message: string, status: int)
    requires message != "" && status != 0
    ensures Fail<D>(ErrorResponse(message, status)) == ErrorOf(status, message)
  {
    HandleErrorResponse(message, status);
  }

  /** `req.user.id` when `req.user` is undefined. */
  const ReadUndefinedId := TypeError("Cannot read properties of undefined (reading 'id')")
  /** `req.user.id` when `req.user` is null. */
  const ReadNullId := TypeError("Cannot read properties of null (reading 'id')")

  /** The TypeError `req.user.id` throws when there is no account. */
  function ReadUserId(requester: Requester): (e: Err)
    ensures requester.NoUser? ==> e == ReadUndefinedId
    ensures !requester.NoUser? ==> e == ReadNullId
  {
    if requester.NoUser? then ReadUndefinedId else ReadNullId
  }

  /** The account's id, or the empty text when there is none. */
  function RequesterId(requester: Requester): Id {
    if requester.Known? then requester.user.id else ""
  }
  /** `doc.user.toString()` on a document without `user`. */
  const ReadOwner := TypeError("Cannot read properties of undefined (reading 'toString')")

  /** A TypeError reaches the client as a 500 with its message. */
  lemma TypeErrorIs500<D>(message: string)
    requires message != ""
    ensures Fail<D>(TypeError(message)) == ErrorOf(500, message)
  {
  }

  /** `owner.toString() !== req.user.id && req.user.role !== 'admin'`,
      evaluated left to right: the error the test throws or raises, or
      None when the requester may go on. */
  function OwnerCheck(owner: Option<Id>, requester: Requester, denied: Err): (r: Option<Err>)
    ensures r.None? <==>
      owner.Some? && requester.Known? && (owner.value == requester.user.id || requester.user.role == "admin")
    ensures owner.None? ==> r == Some(ReadOwner)
    ensures owner.Some? && requester.NoUser? ==> r == Some(ReadUndefinedId)
    ensures owner.Some? && requester.NullUser? ==> r == Some(ReadNullId)
    ensures owner.Some? && requester.Known? && owner.value != requester.user.id && requester.user.role != "admin"
      ==> r == Some(denied)
  {
    if owner.None? then Some(ReadOwner)
    else if !requester.Known? then Some(ReadUserId(requester))
    else if owner.value != requester.user.id && requester.user.role != "admin" then Some(denied)
    else None
  }

  /** The text a template literal gives an optional route parameter. */
  function ParamText(p: Option<string>): string {
    if p.Some? then p.value else "undefined"
  }
}
