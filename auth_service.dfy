/**
 * The authentication service: registration stores a new user with a
 * hashed password, and login is a read-only decision that ends in a
 * signed token.  Hashing, hash comparison and signing are parameters.
 */
module AuthService {
  import opened Wrappers
  import opened JsString
  import opened ErrorTypes
  import opened UserModel
  import opened Database
  import opened Authentication

  /** The claims put into a login token. */
  datatype JwtPayload = JwtPayload(userId: ObjectId, role: Role)

  /** The message the hashing library throws when it is given no password. */
  const NoPasswordMessage := "data and salt arguments required"

  /** The fields registration hands to the mapper: name and email as given, the password hashed, nothing else. */
  function StoredFields(payload: UserFields, hash: string -> string): (f: UserFields)
    requires payload.password.Some?
    ensures f.name == payload.name && f.email == payload.email
    ensures f.password == Some(hash(payload.password.value))
    ensures f.role.None? && f.isBlocked.None?
  {
    UserFields(payload.name, payload.email, Some(hash(payload.password.value)), None, None)
  }

  /** What registration produces: the hashing library's error without a password, else the mapper's outcome on the stored fields. */
  function RegisterOutcome(users: map<ObjectId, UserRecord>, payload: UserFields, hash: string -> string, now: int)
    : (r: Result<UserRecord, Error>)
    ensures payload.password.None? ==> r == Err(LibraryError(NoPasswordMessage))
    ensures payload.password.Some? ==> r == CreateUserOutcome(users, StoredFields(payload, hash), now)
  {
    if payload.password.None? then Err(LibraryError(NoPasswordMessage))
    else CreateUserOutcome(users, StoredFields(payload, hash), now)
  }

  /** A registered user gets the model's defaults whatever role or blocked flag the payload carried, and the hash as password. */
  lemma RegisteredUserDefaults(users: map<ObjectId, UserRecord>, payload: UserFields, hash: string -> string, now: int)
    requires RegisterOutcome(users, payload, hash, now).Ok?
    ensures payload.password.Some?
    ensures var u := RegisterOutcome(users, payload, hash, now).value;
      && u.role == UserRole && !u.isBlocked
      && u.password == hash(payload.password.value)
      && u.name == payload.name.value && u.email == payload.email.value
      && u.createdAt == now && u.updatedAt == now
  {
  }

  /** Registration does not depend on the payload's role or blocked flag. */
  lemma RegistrationIgnoresRoleAndFlag(
    users: map<ObjectId, UserRecord>, payload: UserFields, hash: string -> string, now: int,
    role: Option<Role>, isBlocked: Option<bool>)
    ensures RegisterOutcome(users, payload.(role := role, isBlocked := isBlocked), hash, now)
         == RegisterOutcome(users, payload, hash, now)
  {
  }

  /** `registerUser(payload)`: hash the password, then create the user. */
  method RegisterUser(db: Store, payload: UserFields, hash: string -> string, now: int) returns (r: Result<ObjectId, Error>)
    requires db.Valid()
    modifies db
    ensures db.Valid() && db.blogs == old(db.blogs)
    ensures var outcome := RegisterOutcome(old(db.users), payload, hash, now);
      && (outcome.Err? ==> r == Err(outcome.error) && db.users == old(db.users))
      && (outcome.Ok? ==> r == Ok(old(db.nextId)) && old(db.nextId) !in old(db.users)
                          && db.users == old(db.users)[old(db.nextId) := outcome.value])
  {
    if payload.password.None? {
      r := Err(LibraryError(NoPasswordMessage));
    } else {
      r := db.CreateUser(StoredFields(payload, hash), now);
    }
  }

  /** The fields a login lookup reads: the id always, the password and role, and `isBlocked` only if projected. */
  datatype LoginView = LoginView(id: ObjectId, password: string, role: Role, isBlocked: Option<bool>)

  /** `findOne({ email }, { password: 1, role: 1 })`: `isBlocked` is not projected, so it is undefined. */
  function ProjectedAsWritten(id: ObjectId, u: UserRecord): (v: LoginView)
    ensures v.isBlocked.None?
  {
    LoginView(id, u.password, u.role, None)
  }

  /** The lookup with `isBlocked` in the projection as well. */
  function Projected(id: ObjectId, u: UserRecord): (v: LoginView)
    ensures v.isBlocked == Some(u.isBlocked)
  {
    LoginView(id, u.password, u.role, Some(u.isBlocked))
  }

  /** The checks after the lookup: blocked, then the password, then the token. */
  function LoginDecision(view: LoginView, password: string, compare: (string, string) -> bool, sign: JwtPayload -> string)
    : (r: Result<string, Error>)
    ensures r.Ok? <==> !(view.isBlocked == Some(true)) && compare(password, view.password)
    ensures r.Ok? ==> r.value == sign(JwtPayload(view.id, view.role))
    ensures view.isBlocked == Some(true) ==> r == Err(AppError(FORBIDDEN, "User is blocked"))
    ensures view.isBlocked != Some(true) && !compare(password, view.password)
        ==> r == Err(AppError(UNAUTHORIZED, "Invalid credentials"))
  {
    if view.isBlocked.Some? && view.isBlocked.value then Err(AppError(FORBIDDEN, "User is blocked"))
    else if !compare(password, view.password) then Err(AppError(UNAUTHORIZED, "Invalid credentials"))
    else Ok(sign(JwtPayload(view.id, view.role)))
  }

  /** `loginUser` as written, with the projection that leaves `isBlocked` out. */
  function LoginAsWritten(
    users: map<ObjectId, UserRecord>, email: string, password: string,
    compare: (string, string) -> bool, sign: JwtPayload -> string): (r: Result<string, Error>)
    requires UniqueEmails(users)
    ensures !EmailTaken(users, email) ==> r == Err(AppError(NOT_FOUND, "User not found"))
    ensures forall id :: id in users && users[id].email == email ==>
      && (!compare(password, users[id].password) ==> r == Err(AppError(UNAUTHORIZED, "Invalid credentials")))
      && (r.Ok? <==> compare(password, users[id].password))
      && (r.Ok? ==> r.value == sign(JwtPayload(id, users[id].role)))
  {
    var found := UserWithEmail(users, email);
    if found.None? then Err(AppError(NOT_FOUND, "User not found"))
    else LoginDecision(ProjectedAsWritten(found.value, users[found.value]), password, compare, sign)
  }

  /** As written, the 403 branch cannot be taken: a blocked user with the right password gets a token. */
  lemma BlockedUserLogsInAsWritten(
    users: map<ObjectId, UserRecord>, id: ObjectId, password: string,
    compare: (string, string) -> bool, sign: JwtPayload -> string)
    requires UniqueEmails(users) && id in users && users[id].isBlocked
    requires compare(password, users[id].password)
    ensures LoginAsWritten(users, users[id].email, password, compare, sign) == Ok(sign(JwtPayload(id, users[id].role)))
  {
    var found := UserWithEmail(users, users[id].email);
    assert EmailTaken(users, users[id].email);
    assert found.value == id;
  }

  /** As written, login never fails with 403. */
  lemma NeverForbiddenAsWritten(
    users: map<ObjectId, UserRecord>, email: string, password: string,
    compare: (string, string) -> bool, sign: JwtPayload -> string)
    requires UniqueEmails(users)
    ensures LoginAsWritten(users, email, password, compare, sign) != Err(AppError(FORBIDDEN, "User is blocked"))
  {
  }

  /** `loginUser` with `isBlocked` read: no user, then blocked, then wrong password; otherwise a token for the user's id and role. */
  function Login(
    users: map<ObjectId, UserRecord>, email: string, password: string,
    compare: (string, string) -> bool, sign: JwtPayload -> string): (r: Result<string, Error>)
    requires UniqueEmails(users)
    ensures !EmailTaken(users, email) ==> r == Err(AppError(NOT_FOUND, "User not found"))
    ensures forall id :: id in users && users[id].email == email ==>
      && (users[id].isBlocked ==> r == Err(AppError(FORBIDDEN, "User is blocked")))
      && (!users[id].isBlocked && !compare(password, users[id].password)
          ==> r == Err(AppError(UNAUTHORIZED, "Invalid credentials")))
      && (r.Ok? <==> !users[id].isBlocked && compare(password, users[id].password))
      && (r.Ok? ==> r.value == sign(JwtPayload(id, users[id].role)))
  {
    var found := UserWithEmail(users, email);
    if found.None? then Err(AppError(NOT_FOUND, "User not found"))
    else LoginDecision(Projected(found.value, users[found.value]), password, compare, sign)
  }

  /** The two logins disagree exactly when the email belongs to a blocked user. */
  lemma AsWrittenDiffersOnlyForBlocked(
    users: map<ObjectId, UserRecord>, email: string, password: string,
    compare: (string, string) -> bool, sign: JwtPayload -> string)
    requires UniqueEmails(users)
    ensures LoginAsWritten(users, email, password, compare, sign) != Login(users, email, password, compare, sign)
        <==> exists id :: id in users && users[id].email == email && users[id].isBlocked
  {
    var found := UserWithEmail(users, email);
    if found.Some? {
      var id := found.value;
      if users[id].isBlocked {
        assert LoginAsWritten(users, email, password, compare, sign).Ok?
            || LoginAsWritten(users, email, password, compare, sign).error.statusCode == UNAUTHORIZED;
      }
    }
  }

  /** `loginUser` as the code runs it: it reads the store, writes nothing, and never reads `isBlocked`. */
  method LoginUser(
    db: Store, email: string, password: string, compare: (string, string) -> bool, sign: JwtPayload -> string)
    returns (r: Result<string, Error>)
    requires db.Valid()
    ensures r == LoginAsWritten(db.users, email, password, compare, sign)
  {
    var found := UserWithEmail(db.users, email);
    if found.None? {
      r := Err(AppError(NOT_FOUND, "User not found"));
    } else {
      r := LoginDecision(ProjectedAsWritten(found.value, db.users[found.value]), password, compare, sign);
    }
  }

  /** A user who has just registered can log in with the same password and gets a token for the default role. */
  lemma RegisterThenLogin(
    users: map<ObjectId, UserRecord>, newId: ObjectId, payload: UserFields, hash: string -> string, now: int,
    compare: (string, string) -> bool, sign: JwtPayload -> string)
    requires UniqueEmails(users) && newId !in users
    requires RegisterOutcome(users, payload, hash, now).Ok?
    requires payload.password.Some? && compare(payload.password.value, hash(payload.password.value))
    ensures payload.email.Some?
    ensures var after := users[newId := RegisterOutcome(users, payload, hash, now).value];
      && UniqueEmails(after)
      && Login(after, payload.email.value, payload.password.value, compare, sign) == Ok(sign(JwtPayload(newId, UserRole)))
      && LoginAsWritten(after, payload.email.value, payload.password.value, compare, sign)
         == Ok(sign(JwtPayload(newId, UserRole)))
  {
    var u := RegisterOutcome(users, payload, hash, now).value;
    var after := users[newId := u];
    assert !EmailTaken(users, u.email);
    forall a, b | a in after && b in after && after[a].email == after[b].email
      ensures a == b
    {
      if a != newId && b != newId {
        assert users[a].email == users[b].email;
      }
    }
    assert after[newId].email == payload.email.value;
  }

  /**
   * The token login issues is admitted by the middleware for a route that
   * requires the user's role, provided the token library decodes what it
   * signed and the user has not been blocked since.
   */
  lemma IssuedTokenAdmitted(
    users: map<ObjectId, UserRecord>, id: ObjectId, password: string, token: string,
    compare: (string, string) -> bool, sign: JwtPayload -> string,
    verify: string -> VerifyOutcome, objectId: string -> Option<ObjectId>, otherClaims: map<string, Json.Json>)
    requires UniqueEmails(users) && id in users && !users[id].isBlocked
    requires LoginAsWritten(users, users[id].email, password, compare, sign) == Ok(token)
    requires forall p :: verify(sign(p)) == Decoded(Some(TokenPayload(Some(NatText(p.userId)), Some(RoleName(p.role)), otherClaims)))
    requires ' ' !in token
    requires objectId(NatText(id)) == Some(id)
    ensures Authorize(Some(BearerPrefix + token), verify, objectId, users, [users[id].role])
         == Ok(TokenPayload(Some(NatText(id)), Some(RoleName(users[id].role)), otherClaims))
  {
    assert token == sign(JwtPayload(id, users[id].role));
    BearerTokenRoundTrip(token);
    NatTextNonEmpty(id);
    assert RoleName(users[id].role) != "";
    assert [users[id].role][0] == users[id].role;
  }
}
