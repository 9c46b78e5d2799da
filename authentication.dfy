/**
 * The access-control middleware `authentication(...requiredRoles)`: a
 * fixed, short-circuiting chain of checks on the `Authorization` header,
 * the token's claims and the stored user, then `req.user` is set and the
 * request passes on.  The token library and the id check are parameters.
 */
module Authentication {
  import opened Wrappers
  import opened Json
  import opened JsString
  import opened ErrorTypes
  import opened UserModel
  import opened Http
  import opened ErrorEnvelope
  import opened Database

  /** The decoded claims: `userId` and `role` are the service's own; the rest (issue and expiry times) pass through. */
  datatype TokenPayload = TokenPayload(userId: Option<string>, role: Option<string>, otherClaims: map<string, Json>)

  /** What the token library does with a token: its claims (`None` when falsy), or a rejection it throws. */
  datatype VerifyOutcome = Decoded(payload: Option<TokenPayload>) | Rejected(reason: string)

  const BearerPrefix := "Bearer "

  /** The header is present and starts with "Bearer ". */
  predicate HeaderPresent(header: Option<string>) {
    Truthy(header) && StartsWith(header.value, BearerPrefix)
  }

  lemma BearerSplit(header: string)
    requires StartsWith(header, BearerPrefix)
    ensures Split(header, ' ') == ["Bearer"] + Split(header[|BearerPrefix|..], ' ')
  {
    assert header == "Bearer" + [' '] + header[|BearerPrefix|..];
    SplitAfterSegment("Bearer", ' ', header[|BearerPrefix|..]);
  }

  /** `authHeader.split(' ')[1]`: the word after "Bearer ", up to the next space or the end. */
  function BearerToken(header: string): (token: string)
    requires StartsWith(header, BearerPrefix)
    ensures ' ' !in token
    ensures StartsWith(header[|BearerPrefix|..], token)
    ensures |BearerPrefix| + |token| == |header| || header[|BearerPrefix| + |token|] == ' '
  {
    BearerSplit(header);
    SplitFirst(header[|BearerPrefix|..], ' ');
    Split(header, ' ')[1]
  }

  /** The header "Bearer <token>" gives back a token without spaces. */
  lemma BearerTokenRoundTrip(token: string)
    requires ' ' !in token
    ensures StartsWith(BearerPrefix + token, BearerPrefix)
    ensures BearerToken(BearerPrefix + token) == token
  {
    var header := BearerPrefix + token;
    assert header[..|BearerPrefix|] == BearerPrefix;
    assert header[|BearerPrefix|..] == token;
    BearerSplit(header);
    SplitWithoutSeparator(token, ' ');
  }

  /** `requiredRoles.length && !requiredRoles.includes(role)` is false. */
  predicate Permits(requiredRoles: seq<Role>, role: string) {
    |requiredRoles| == 0 || exists i :: 0 <= i < |requiredRoles| && RoleName(requiredRoles[i]) == role
  }

  /** The claims name a valid user id and a role. */
  predicate ValidClaims(p: TokenPayload, objectId: string -> Option<ObjectId>) {
    Truthy(p.userId) && objectId(p.userId.value).Some? && Truthy(p.role)
  }

  function ClaimedUser(p: TokenPayload, objectId: string -> Option<ObjectId>): ObjectId
    requires ValidClaims(p, objectId)
  {
    objectId(p.userId.value).value
  }

  /** What lets a request through, stated as one conjunction rather than as a chain. */
  predicate Admits(
    header: Option<string>, verify: string -> VerifyOutcome, objectId: string -> Option<ObjectId>,
    users: map<ObjectId, UserRecord>, requiredRoles: seq<Role>)
  {
    HeaderPresent(header) && PayloadAdmitted(verify(BearerToken(header.value)), objectId, users, requiredRoles)
  }

  predicate PayloadAdmitted(
    outcome: VerifyOutcome, objectId: string -> Option<ObjectId>, users: map<ObjectId, UserRecord>, requiredRoles: seq<Role>)
  {
    outcome.Decoded? && outcome.payload.Some? && ValidClaims(outcome.payload.value, objectId)
    && ClaimedUser(outcome.payload.value, objectId) in users
    && !users[ClaimedUser(outcome.payload.value, objectId)].isBlocked
    && Permits(requiredRoles, outcome.payload.value.role.value)
  }

  /** The check chain: the first failing check decides the error; on success, the decoded claims. */
  function Authorize(
    header: Option<string>, verify: string -> VerifyOutcome, objectId: string -> Option<ObjectId>,
    users: map<ObjectId, UserRecord>, requiredRoles: seq<Role>): (r: Result<TokenPayload, Error>)
    ensures !HeaderPresent(header) ==> r == Err(AppError(UNAUTHORIZED, "You are not authorized!"))
    ensures r.Ok? <==> Admits(header, verify, objectId, users, requiredRoles)
    ensures r.Ok? ==> Some(r.value) == verify(BearerToken(header.value)).payload
    ensures r.Err? && r.error.JsonWebTokenError? ==> verify(BearerToken(header.value)).Rejected?
    ensures HeaderPresent(header) && verify(BearerToken(header.value)).Rejected?
        ==> r == Err(JsonWebTokenError(verify(BearerToken(header.value)).reason))
    ensures r.Err? ==> r.error.JsonWebTokenError? || (r.error.AppError? && r.error.statusCode in {UNAUTHORIZED, NOT_FOUND})
  {
    if !HeaderPresent(header) then Err(AppError(UNAUTHORIZED, "You are not authorized!"))
    else
      match verify(BearerToken(header.value))
      case Rejected(reason) => Err(JsonWebTokenError(reason))
      case Decoded(decoded) =>
        if decoded.None? then Err(AppError(UNAUTHORIZED, "Invalid token!"))
        else if !Truthy(decoded.value.userId) || objectId(decoded.value.userId.value).None? then
          Err(AppError(UNAUTHORIZED, "Invalid userId in token!"))
        else if !Truthy(decoded.value.role) then Err(AppError(UNAUTHORIZED, "Missing role in token!"))
        else
          var id := ClaimedUser(decoded.value, objectId);
          if id !in users then Err(AppError(NOT_FOUND, "This user is not found!"))
          else if users[id].isBlocked then Err(AppError(UNAUTHORIZED, "Your account is blocked!"))
          else if !Permits(requiredRoles, decoded.value.role.value) then
            Err(AppError(UNAUTHORIZED, "You are not authorized to perform this action!"))
          else Ok(decoded.value)
  }

  /** A bad header fails before the token library, the id check or the store is consulted. */
  lemma HeaderCheckedFirst(
    header: Option<string>, verify1: string -> VerifyOutcome, verify2: string -> VerifyOutcome,
    objectId1: string -> Option<ObjectId>, objectId2: string -> Option<ObjectId>,
    users1: map<ObjectId, UserRecord>, users2: map<ObjectId, UserRecord>, roles1: seq<Role>, roles2: seq<Role>)
    requires !HeaderPresent(header)
    ensures Authorize(header, verify1, objectId1, users1, roles1) == Authorize(header, verify2, objectId2, users2, roles2)
  {
  }

  /** Claims that are falsy or lack a valid user id or a role fail whatever the store holds and whatever roles are required. */
  lemma ClaimsCheckedBeforeStore(
    header: Option<string>, verify: string -> VerifyOutcome, objectId: string -> Option<ObjectId>,
    users1: map<ObjectId, UserRecord>, users2: map<ObjectId, UserRecord>, roles1: seq<Role>, roles2: seq<Role>)
    requires HeaderPresent(header)
    requires var outcome := verify(BearerToken(header.value));
      outcome.Rejected? || outcome.payload.None? || !ValidClaims(outcome.payload.value, objectId)
    ensures Authorize(header, verify, objectId, users1, roles1) == Authorize(header, verify, objectId, users2, roles2)
    ensures Authorize(header, verify, objectId, users1, roles1).Err?
  {
  }

  /** Each claim failure gets its own 401, in the order of the checks. */
  lemma ClaimFailures(header: Option<string>, verify: string -> VerifyOutcome, objectId: string -> Option<ObjectId>,
                      users: map<ObjectId, UserRecord>, requiredRoles: seq<Role>)
    requires HeaderPresent(header) && verify(BearerToken(header.value)).Decoded?
    ensures var decoded := verify(BearerToken(header.value)).payload;
      var r := Authorize(header, verify, objectId, users, requiredRoles);
      && (decoded.None? ==> r == Err(AppError(UNAUTHORIZED, "Invalid token!")))
      && (decoded.Some? && (!Truthy(decoded.value.userId) || objectId(decoded.value.userId.value).None?)
          ==> r == Err(AppError(UNAUTHORIZED, "Invalid userId in token!")))
      && ((decoded.Some? && Truthy(decoded.value.userId) && objectId(decoded.value.userId.value).Some?
           && !Truthy(decoded.value.role))
          ==> r == Err(AppError(UNAUTHORIZED, "Missing role in token!")))
  {
  }

  /** Once the claims are valid the store decides: a missing user is a 404, a blocked one a 401, before any role check. */
  lemma StoreFailures(header: Option<string>, verify: string -> VerifyOutcome, objectId: string -> Option<ObjectId>,
                      users: map<ObjectId, UserRecord>, requiredRoles: seq<Role>)
    requires HeaderPresent(header) && verify(BearerToken(header.value)).Decoded?
    requires verify(BearerToken(header.value)).payload.Some?
    requires ValidClaims(verify(BearerToken(header.value)).payload.value, objectId)
    ensures var p := verify(BearerToken(header.value)).payload.value;
      var id := ClaimedUser(p, objectId);
      var r := Authorize(header, verify, objectId, users, requiredRoles);
      && (id !in users ==> r == Err(AppError(NOT_FOUND, "This user is not found!")))
      && (id in users && users[id].isBlocked ==> r == Err(AppError(UNAUTHORIZED, "Your account is blocked!")))
      && (id in users && !users[id].isBlocked && !Permits(requiredRoles, p.role.value)
          ==> r == Err(AppError(UNAUTHORIZED, "You are not authorized to perform this action!")))
  {
  }

  /** With no required roles, any request that passes some role list passes; adding roles to the list never shuts anyone out. */
  lemma RoleListMonotone(
    header: Option<string>, verify: string -> VerifyOutcome, objectId: string -> Option<ObjectId>,
    users: map<ObjectId, UserRecord>, roles: seq<Role>, more: seq<Role>)
    ensures Authorize(header, verify, objectId, users, roles).Ok? ==> Authorize(header, verify, objectId, users, []).Ok?
    ensures Authorize(header, verify, objectId, users, roles).Ok? && roles != []
        ==> Authorize(header, verify, objectId, users, roles + more).Ok?
  {
    if Authorize(header, verify, objectId, users, roles).Ok? && roles != [] {
      var p := verify(BearerToken(header.value)).payload.value;
      var i :| 0 <= i < |roles| && RoleName(roles[i]) == p.role.value;
      assert (roles + more)[i] == roles[i];
    }
  }

  /** The role checked is the token's claim, not the stored one: changing a stored role changes nothing. */
  lemma StoredRoleIgnored(
    header: Option<string>, verify: string -> VerifyOutcome, objectId: string -> Option<ObjectId>,
    users: map<ObjectId, UserRecord>, requiredRoles: seq<Role>, id: ObjectId, role: Role)
    requires id in users
    ensures Authorize(header, verify, objectId, users[id := users[id].(role := role)], requiredRoles)
         == Authorize(header, verify, objectId, users, requiredRoles)
  {
  }

  /** After the admin blocks a user, every token for that user is refused with the blocked error. */
  lemma BlockedUserRefused(
    header: Option<string>, verify: string -> VerifyOutcome, objectId: string -> Option<ObjectId>,
    users: map<ObjectId, UserRecord>, requiredRoles: seq<Role>, id: ObjectId, now: int)
    requires id in users && HeaderPresent(header)
    requires verify(BearerToken(header.value)).Decoded? && verify(BearerToken(header.value)).payload.Some?
    requires ValidClaims(verify(BearerToken(header.value)).payload.value, objectId)
    requires ClaimedUser(verify(BearerToken(header.value)).payload.value, objectId) == id
    ensures Authorize(header, verify, objectId, WithBlocked(users, id, now), requiredRoles)
         == Err(AppError(UNAUTHORIZED, "Your account is blocked!"))
  {
  }

  /** The request as the middleware sees it: the header it reads and the `user` slot it fills. */
  class Request {
    var authorization: Option<string>
    var user: Option<TokenPayload>

    constructor (authorization: Option<string>)
      ensures this.authorization == authorization && user.None?
    {
      this.authorization := authorization;
      user := None;
    }
  }

  /**
   * The middleware itself.  On success `req.user` is the decoded claims and
   * `next()` is called; a token-library error is forwarded as a 401
   * "Invalid token!" with nothing sent; any other error is sent as an error
   * envelope and then forwarded unchanged.
   */
  method Authenticate(
    req: Request, res: Response, db: Store, requiredRoles: seq<Role>,
    verify: string -> VerifyOutcome, objectId: string -> Option<ObjectId>,
    simplify: Error -> ErrorResponse, env: string)
    returns (next: NextCall)
    modifies req`user, res
    ensures var r := Authorize(req.authorization, verify, objectId, db.users, requiredRoles);
      && (r.Ok? ==> req.user == Some(r.value) && next == Called && res.writes == old(res.writes))
      && (r.Err? ==> req.user == old(req.user))
      && (r.Err? && r.error.JsonWebTokenError?
          ==> next == CalledWith(AppError(UNAUTHORIZED, "Invalid token!")) && res.writes == old(res.writes))
      && (r.Err? && !r.error.JsonWebTokenError?
          ==> next == CalledWith(r.error)
              && res.writes == old(res.writes) + [Write(simplify(r.error).statusCode, Envelope(simplify(r.error), env))])
  {
    var r := Authorize(req.authorization, verify, objectId, db.users, requiredRoles);
    if r.Ok? {
      req.user := Some(r.value);
      next := Called;
    } else if r.error.JsonWebTokenError? {
      next := CalledWith(AppError(UNAUTHORIZED, "Invalid token!"));
    } else {
      next := SendErrorAndForward(res, r.error, simplify, env);
    }
  }
}
