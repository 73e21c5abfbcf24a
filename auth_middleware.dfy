/** verifyJWT: find the access token of a request, resolve it to a user, and either hand
    the request on with that user attached or fail it. The signature check is outside
    the model: `verify` stands for `jwt.verify` with the access-token secret. */
module AuthMiddleware {

  import opened Js
  import opened ObjectIds
  import opened Envelope
  import opened Tables
  import opened Text
  import opened Records
  import opened Db

  /** What `jwt.verify` does with a token: it throws, or returns the payload, whose
      `_id` may be missing. */
  datatype JwtResult = Rejected | Decoded(subject: Option<Id>)

  /** The parts of an Express request the middleware reads and writes. */
  class Request {
    /** `req.cookies?.accessToken`. */
    var cookieToken: Option<string>
    /** `req.header("Authorization")`. */
    var authorization: Option<string>
    /** `req.user`, set on success. */
    var user: Option<PublicUser>
    /** How many times `next()` has been called for this request. */
    var nextCalls: nat

    constructor (cookieToken: Option<string>, authorization: Option<string>)
      ensures this.cookieToken == cookieToken && this.authorization == authorization
      ensures user == None && nextCalls == 0
    {
      this.cookieToken := cookieToken;
      this.authorization := authorization;
      user := None;
      nextCalls := 0;
    }
  }

  /** The token the middleware uses: a truthy `accessToken` cookie, otherwise the
      Authorization header with its first "Bearer " removed, otherwise none. */
  function SelectToken(cookie: Option<string>, header: Option<string>): (r: Option<string>)
    ensures Truthy(cookie) ==> r == cookie
    ensures !Truthy(cookie) && header.None? ==> r == None
    ensures !Truthy(cookie) && header.Some? ==> r == Some(ReplaceFirst(header.value, "Bearer ", ""))
  {
    if Truthy(cookie) then cookie
    else if header.Some? then Some(ReplaceFirst(header.value, "Bearer ", ""))
    else None
  }

  /** Without a usable cookie, a header `Bearer <t>` yields exactly `t`. */
  lemma BearerHeaderYieldsToken(cookie: Option<string>, t: string)
    requires !Truthy(cookie)
    ensures SelectToken(cookie, Some("Bearer " + t)) == Some(t)
  {
    RemoveLeading("Bearer ", t);
  }

  /** A header without "Bearer " in it is used as it is. */
  lemma PlainHeaderIsToken(cookie: Option<string>, h: string)
    requires !Truthy(cookie)
    requires forall i: nat :: !OccursAt(h, "Bearer ", i)
    ensures SelectToken(cookie, Some(h)) == Some(h)
  {
    assert IndexOf(h, "Bearer ").None?;
  }

  /** The user a request authenticates as: its token is truthy, `verify` accepts it,
      the payload's `_id` is a valid id, and a user has that id. */
  function Resolve(users: seq<User>, cookie: Option<string>, header: Option<string>,
                   verify: string -> JwtResult): (r: Option<User>)
    ensures r.Some? ==>
      && Truthy(SelectToken(cookie, header))
      && verify(SelectToken(cookie, header).value).Decoded?
      && verify(SelectToken(cookie, header).value).subject == Some(r.value.id)
      && IsValidObjectId(r.value.id)
      && r.value in users
    ensures r.None? <==>
      || !Truthy(SelectToken(cookie, header))
      || verify(SelectToken(cookie, header).value).Rejected?
      || verify(SelectToken(cookie, header).value).subject.None?
      || !IsValidObjectId(verify(SelectToken(cookie, header).value).subject.value)
      || !UserExists(users, verify(SelectToken(cookie, header).value).subject.value)
  {
    var token := SelectToken(cookie, header);
    if !Truthy(token) then None
    else
      match verify(token.value)
      case Rejected => None
      case Decoded(subject) =>
        if subject.None? || !IsValidObjectId(subject.value) then None
        else Get(users, UserId, subject.value)
  }

  /** verifyJWT. On success the user, without its secrets, is attached to the request
      and `next` is called once; every failure (no token, a rejected token, no such
      user) is caught and replaced by a 500, and `next` is not called. */
  method VerifyJWT(req: Request, users: seq<User>, verify: string -> JwtResult) returns (failure: Option<ApiError>)
    modifies req`user, req`nextCalls
    ensures var u := Resolve(users, old(req.cookieToken), old(req.authorization), verify);
      && (u.None? ==> failure == Some(ApiError(500, "something went wrong"))
                      && req.user == old(req.user) && req.nextCalls == old(req.nextCalls))
      && (u.Some? ==> failure == None && req.user == Some(Public(u.value)) && req.nextCalls == old(req.nextCalls) + 1)
  {
    var token := SelectToken(req.cookieToken, req.authorization);
    if !Truthy(token) {
      failure := Some(ApiError(500, "something went wrong"));
      return;
    }
    var decoded := verify(token.value);
    if decoded.Rejected? || decoded.subject.None? || !IsValidObjectId(decoded.subject.value) {
      failure := Some(ApiError(500, "something went wrong"));
      return;
    }
    var found := Get(users, UserId, decoded.subject.value);
    if found.None? {
      failure := Some(ApiError(500, "something went wrong"));
      return;
    }
    req.user := Some(Public(found.value));
    req.nextCalls := req.nextCalls + 1;
    failure := None;
  }
}
