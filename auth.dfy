/** The `protect` middleware: it reads a bearer token from the
    `Authorization` header, has it verified, and attaches the user named in
    it to the request. JWT verification is a parameter: `verify` gives the
    user id a token was signed for, or None when verification throws. */
module Auth {
  import opened Common
  import opened Strings
  import opened ErrorHandler

  const BearerPrefix := "Bearer"
  const Unauthorized := "Acesso não autorizado !"

  /** The token of an `Authorization` header: the header must exist and
      start with "Bearer"; the token is then the second space-separated
      piece, which is undefined (None) when there is no space. */
  function ExtractToken(authorization: Option<string>): (token: Option<string>)
    ensures authorization.None? || !StartsWith(authorization.value, BearerPrefix) ==> token.None?
    ensures token.Some? ==> ' ' !in token.value
  {
    if authorization.Some? && authorization.value != "" && StartsWith(authorization.value, BearerPrefix) then
      var pieces := Split(authorization.value, ' ');
      if |pieces| > 1 then Some(pieces[1]) else None
    else None
  }

  /** The header "Bearer <t>" yields `t` when `t` has no space in it. */
  lemma ExtractBearer(t: string)
    requires ' ' !in t
    ensures ExtractToken(Some(BearerPrefix + " " + t)) == Some(t)
  {
    var h := BearerPrefix + " " + t;
    assert h[..|BearerPrefix|] == BearerPrefix;
    var pieces := Split(h, ' ');
    assert IndexOf(h, ' ') == 6 by {
      assert h[6] == ' ';
      assert ' ' !in h[..6];
    }
    assert h[7..] == t;
    assert Split(t, ' ') == [t];
    assert pieces == [BearerPrefix, t];
  }

  /** A header that is just "Bearer" gives no token. */
  lemma BareBearerHasNoToken()
    ensures ExtractToken(Some(BearerPrefix)) == None
  {
    assert ' ' !in BearerPrefix;
    assert Split(BearerPrefix, ' ') == [BearerPrefix];
  }

  /** The request as `protect` sees it: the header it reads and the
      `user` field it sets. */
  class Request {
    const authorization: Option<string>
    var user: Requester

    constructor (authorization: Option<string>)
      ensures this.authorization == authorization && user.NoUser?
    {
      this.authorization := authorization;
      user := NoUser;
    }
  }

  /** What `protect` does: call `next()` with `req.user` set (to null when
      no user has the decoded id), or `next(err)` with a 401. */
  datatype Gate = Proceed(user: Requester) | Reject(err: Err)

  /** JavaScript truthiness of the token: present and non-empty. */
  predicate HasToken(authorization: Option<string>) {
    var t := ExtractToken(authorization);
    t.Some? && t.value != ""
  }

  /** The outcome of `protect` for a header, a verifier and the users. */
  function GateFor(authorization: Option<string>, verify: string -> Option<Id>, users: map<Id, User>): Gate {
    if !HasToken(authorization) then Reject(ErrorResponse(Unauthorized, 401))
    else match verify(ExtractToken(authorization).value)
      case None => Reject(ErrorResponse(Unauthorized, 401))
      case Some(id) => Proceed(if id in users then Known(users[id]) else NullUser)
  }

  /** A verified token names an account or not: `req.user` is that account,
      or null (`findById` finds nothing) when there is none; never undefined. */
  lemma VerifiedTokenSetsUser(authorization: Option<string>, verify: string -> Option<Id>, users: map<Id, User>)
    requires HasToken(authorization) && verify(ExtractToken(authorization).value).Some?
    ensures var id := verify(ExtractToken(authorization).value).value;
      GateFor(authorization, verify, users) == Proceed(if id in users then Known(users[id]) else NullUser)
    ensures !GateFor(authorization, verify, users).user.NoUser?
  {
  }

  /** Without a usable token the request is refused before any
      verification: the outcome does not depend on the verifier. */
  lemma NoTokenNoVerify(authorization: Option<string>, v1: string -> Option<Id>, v2: string -> Option<Id>, users: map<Id, User>)
    requires !HasToken(authorization)
    ensures GateFor(authorization, v1, users) == GateFor(authorization, v2, users)
    ensures GateFor(authorization, v1, users).Reject?
    ensures Handle(GateFor(authorization, v1, users).err).status == 401
  {
  }

  /** A token that fails verification is refused with 401. */
  lemma FailedVerifyRejects(authorization: Option<string>, verify: string -> Option<Id>, users: map<Id, User>)
    requires HasToken(authorization) && verify(ExtractToken(authorization).value).None?
    ensures Handle(GateFor(authorization, verify, users).err).status == 401
  {
  }

  /** `protect(req, res, next)`: sets `req.user` on success and leaves the
      request untouched otherwise. */
  method Protect(req: Request, verify: string -> Option<Id>, users: map<Id, User>) returns (g: Gate)
    modifies req
    ensures g == GateFor(req.authorization, verify, users)
    ensures g.Proceed? ==> req.user == g.user
    ensures g.Reject? ==> req.user == old(req.user)
  {
    var token := ExtractToken(req.authorization);
    if token.None? || token.value == "" {
      return Reject(ErrorResponse(Unauthorized, 401));
    }
    var decoded := verify(token.value);
    if decoded.None? {
      return Reject(ErrorResponse(Unauthorized, 401));
    }
    req.user := if decoded.value in users then Known(users[decoded.value]) else NullUser;
    g := Proceed(req.user);
  }
}
