/**
 * The register and login handlers: each calls the service, sends a
 * success envelope with a fixed message and a projected `data`, and on
 * any thrown error sends the simplified error and forwards the original.
 */
module AuthController {
  import opened Wrappers
  import opened Json
  import opened ErrorTypes
  import opened UserModel
  import opened Database
  import opened Http
  import opened ErrorEnvelope
  import RE = ResponseEnvelope
  import opened AuthService

  /** The registered user as sent back: id, name and email only. */
  function RegisteredData(id: ObjectId, u: UserRecord): (j: Json)
    ensures j.JObject? && j.members.Keys == {"_id", "name", "email"}
    ensures j.members["_id"] == IdJson(id)
    ensures j.members["name"] == JString(u.name) && j.members["email"] == JString(u.email)
  {
    JObject(map["_id" := IdJson(id), "name" := JString(u.name), "email" := JString(u.email)])
  }

  function RegisterSuccess(id: ObjectId, u: UserRecord): RE.ResponseData {
    RE.ResponseData(CREATED, true, "User registered successfully", Some(RegisteredData(id, u)))
  }

  function LoginSuccess(token: string): RE.ResponseData {
    RE.ResponseData(OK, true, "Login successful", Some(JObject(map["token" := JString(token)])))
  }

  /** The register envelope, as a client reads it: 201, the fixed message, and data without the password. */
  lemma RegisterEnvelope(id: ObjectId, u: UserRecord)
    ensures var d := RE.ReadEnvelope(RE.Envelope(RegisterSuccess(id, u)));
      && d.Some? && d.value.statusCode == CREATED && d.value.success
      && d.value.message == "User registered successfully"
      && d.value.data.Some? && d.value.data.value.JObject?
      && d.value.data.value.members.Keys == {"_id", "name", "email"}
      && "password" !in d.value.data.value.members
  {
    RE.ReadEnvelopeRoundTrip(RegisterSuccess(id, u));
  }

  /** The login envelope, as a client reads it: 200, the fixed message, and data holding only the token. */
  lemma LoginEnvelope(token: string)
    ensures var d := RE.ReadEnvelope(RE.Envelope(LoginSuccess(token)));
      && d.Some? && d.value.statusCode == OK && d.value.success && d.value.message == "Login successful"
      && d.value.data == Some(JObject(map["token" := JString(token)]))
  {
    RE.ReadEnvelopeRoundTrip(LoginSuccess(token));
  }

  /** `registerUser` handler: the service's outcome becomes a 201 envelope or the error path. */
  method RegisterUserHandler(
    res: Response, db: Store, body: UserFields, hash: string -> string, now: int,
    simplify: Error -> ErrorResponse, env: string)
    returns (next: NextCall)
    requires db.Valid()
    modifies db, res
    ensures db.Valid() && db.blogs == old(db.blogs)
    ensures var outcome := RegisterOutcome(old(db.users), body, hash, now);
      && (outcome.Ok? ==> && db.users == old(db.users)[old(db.nextId) := outcome.value]
                          && res.writes == old(res.writes) + [Write(CREATED, RE.Envelope(RegisterSuccess(old(db.nextId), outcome.value)))]
                          && next == NotCalled)
      && (outcome.Err? ==> && db.users == old(db.users)
                           && res.writes == old(res.writes)
                                + [Write(simplify(outcome.error).statusCode, Envelope(simplify(outcome.error), env))]
                           && next == CalledWith(outcome.error))
  {
    var r := RegisterUser(db, body, hash, now);
    if r.Ok? {
      RE.SendResponse(res, RegisterSuccess(r.value, db.users[r.value]));
      next := NotCalled;
    } else {
      next := SendErrorAndForward(res, r.error, simplify, env);
    }
  }

  /** `loginUser` handler: the token in a 200 envelope, or the error path; the store is only read. */
  method LoginUserHandler(
    res: Response, db: Store, email: string, password: string,
    compare: (string, string) -> bool, sign: JwtPayload -> string,
    simplify: Error -> ErrorResponse, env: string)
    returns (next: NextCall)
    requires db.Valid()
    modifies res
    ensures var outcome := LoginAsWritten(db.users, email, password, compare, sign);
      && (outcome.Ok? ==> res.writes == old(res.writes) + [Write(OK, RE.Envelope(LoginSuccess(outcome.value)))]
                          && next == NotCalled)
      && (outcome.Err? ==> && res.writes == old(res.writes)
                                + [Write(simplify(outcome.error).statusCode, Envelope(simplify(outcome.error), env))]
                           && next == CalledWith(outcome.error))
  {
    var r := LoginUser(db, email, password, compare, sign);
    if r.Ok? {
      RE.SendResponse(res, LoginSuccess(r.value));
      next := NotCalled;
    } else {
      next := SendErrorAndForward(res, r.error, simplify, env);
    }
  }
}
