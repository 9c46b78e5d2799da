/**
 * The user document: required name, email and password; a role from
 * {admin, user} defaulting to user; a blocked flag defaulting to false;
 * creation and update timestamps.  Email is unique over the collection.
 */
module UserModel {
  import opened Wrappers
  import opened JsString
  import opened Json

  /** Document identifiers, abstracted to numbers handed out in order. */
  type ObjectId = nat

  datatype Role = AdminRole | UserRole

  function RoleName(r: Role): string {
    match r
    case AdminRole => "admin"
    case UserRole => "user"
  }

  /** The enum check on `role`: only "admin" and "user" are roles. */
  function RoleFromName(s: string): (r: Option<Role>)
    ensures r.Some? <==> s == "admin" || s == "user"
    ensures r.Some? ==> RoleName(r.value) == s
  {
    if s == "admin" then Some(AdminRole) else if s == "user" then Some(UserRole) else None
  }

  lemma RoleNameRoundTrip(r: Role)
    ensures RoleFromName(RoleName(r)) == Some(r)
  {
  }

  datatype UserRecord = UserRecord(
    name: string, email: string, password: string, role: Role, isBlocked: bool, createdAt: int, updatedAt: int)

  /** The fields given to the mapper's create; `None` is a field not given. */
  datatype UserFields = UserFields(
    name: Option<string>, email: Option<string>, password: Option<string>, role: Option<Role>, isBlocked: Option<bool>)

  /** The required string paths that are missing: a required string may be neither undefined nor empty. */
  function MissingUserPaths(f: UserFields): set<string> {
    (if Truthy(f.name) then {} else {"name"})
    + (if Truthy(f.email) then {} else {"email"})
    + (if Truthy(f.password) then {} else {"password"})
  }

  /** Building the document: required paths are checked, then defaults and timestamps are filled in. */
  function NewUser(f: UserFields, now: int): (r: Result<UserRecord, set<string>>)
    ensures r.Ok? <==> Truthy(f.name) && Truthy(f.email) && Truthy(f.password)
    ensures r.Err? ==> r.error != {} && r.error <= {"name", "email", "password"}
    ensures r.Err? ==> && ("name" in r.error <==> !Truthy(f.name))
                       && ("email" in r.error <==> !Truthy(f.email))
                       && ("password" in r.error <==> !Truthy(f.password))
    ensures r.Ok? ==> && r.value.name == f.name.value && r.value.email == f.email.value
                      && r.value.password == f.password.value
    ensures r.Ok? ==> r.value.role == (if f.role.Some? then f.role.value else UserRole)
    ensures r.Ok? ==> r.value.isBlocked == (f.isBlocked.Some? && f.isBlocked.value)
    ensures r.Ok? ==> r.value.createdAt == now && r.value.updatedAt == now
  {
    var missing := MissingUserPaths(f);
    if missing != {} then Err(missing)
    else Ok(UserRecord(f.name.value, f.email.value, f.password.value, f.role.GetOr(UserRole), f.isBlocked.GetOr(false), now, now))
  }

  /** The unique index on `email`. */
  ghost predicate UniqueEmails(users: map<ObjectId, UserRecord>) {
    forall a, b :: a in users && b in users && users[a].email == users[b].email ==> a == b
  }

  predicate EmailTaken(users: map<ObjectId, UserRecord>, email: string) {
    exists id :: id in users && users[id].email == email
  }

  /** `findOne({ email })`: with unique emails, the one user that has it. */
  function UserWithEmail(users: map<ObjectId, UserRecord>, email: string): (r: Option<ObjectId>)
    requires UniqueEmails(users)
    ensures r.Some? <==> EmailTaken(users, email)
    ensures r.Some? ==> r.value in users && users[r.value].email == email
  {
    if EmailTaken(users, email) then
      var id :| id in users && users[id].email == email;
      Some(id)
    else None
  }

  /** An id as it appears in JSON (the hexadecimal rendering is abstracted to decimal text). */
  function IdJson(id: ObjectId): Json {
    JString(NatText(id))
  }

  /** The whole user document as JSON, password hash included; timestamps as numbers. */
  function UserJson(id: ObjectId, u: UserRecord): (j: Json)
    ensures j.JObject?
    ensures j.members.Keys == {"_id", "name", "email", "password", "role", "isBlocked", "createdAt", "updatedAt"}
    ensures j.members["_id"] == IdJson(id) && j.members["isBlocked"] == JBool(u.isBlocked)
    ensures j.members["role"] == JString(RoleName(u.role)) && j.members["password"] == JString(u.password)
    ensures j.members["name"] == JString(u.name) && j.members["email"] == JString(u.email)
    ensures j.members["createdAt"] == JNumber(u.createdAt) && j.members["updatedAt"] == JNumber(u.updatedAt)
  {
    JObject(map[
      "_id" := IdJson(id), "name" := JString(u.name), "email" := JString(u.email), "password" := JString(u.password),
      "role" := JString(RoleName(u.role)), "isBlocked" := JBool(u.isBlocked),
      "createdAt" := JNumber(u.createdAt), "updatedAt" := JNumber(u.updatedAt)])
  }
}
