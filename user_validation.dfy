/**
 * The user schema.  Unlike the route schemas it has no `body` wrapper:
 * it describes the user object itself.
 */
module UserValidation {
  import opened Wrappers
  import opened Json
  import opened Zod

  const NameField: (string, Schema) := ("name", StringSchema("Name is required", []))
  const EmailField: (string, Schema) := ("email", StringSchema("Email is required", []))
  const PasswordField: (string, Schema) := ("password", StringSchema("Password is required", []))
  const RoleField: (string, Schema) := ("role", OptionalSchema(EnumSchema(["admin", "user"])))
  const BlockedField: (string, Schema) := ("isBlocked", OptionalSchema(BooleanSchema))

  const UserSchema: Schema := ObjectSchema([NameField, EmailField, PasswordField, RoleField, BlockedField])

  /** An optional role: absent, or one of the two role names. */
  predicate RoleValid(role: Option<Json>) {
    role.None? || role.value in {JString("admin"), JString("user")}
  }

  /** An optional flag: absent, or a boolean. */
  predicate BlockedValid(blocked: Option<Json>) {
    blocked.None? || blocked.value.JBool?
  }

  /** Three required strings with no bounds, an optional role from the enum, an optional boolean. */
  predicate UserObjectValid(v: Option<Json>) {
    && v.Some? && v.value.JObject?
    && StringMember(v.value.members, "name").Some?
    && StringMember(v.value.members, "email").Some?
    && StringMember(v.value.members, "password").Some?
    && RoleValid(Lookup(v.value.members, "role"))
    && BlockedValid(Lookup(v.value.members, "isBlocked"))
  }

  /** A string field without checks accepts exactly a string. */
  lemma PlainStringAccepts(field: (string, Schema), m: map<string, Json>, isEmail: string -> bool)
    requires field.1.StringSchema? && field.1.checks == []
    ensures Accepts(field.1, Lookup(m, field.0), isEmail) <==> StringMember(m, field.0).Some?
  {
  }

  lemma RoleFieldAccepts(m: map<string, Json>, isEmail: string -> bool)
    ensures Accepts(RoleField.1, Lookup(m, RoleField.0), isEmail) <==> RoleValid(Lookup(m, "role"))
  {
  }

  lemma BlockedFieldAccepts(m: map<string, Json>, isEmail: string -> bool)
    ensures Accepts(BlockedField.1, Lookup(m, BlockedField.0), isEmail) <==> BlockedValid(Lookup(m, "isBlocked"))
  {
  }

  /** The two optional keys, peeled off the end of the shape. */
  lemma OptionalFieldsAccepted(m: map<string, Json>, isEmail: string -> bool)
    ensures KeysAccepted([RoleField, BlockedField], m, isEmail)
        <==> RoleValid(Lookup(m, "role")) && BlockedValid(Lookup(m, "isBlocked"))
  {
    assert [RoleField, BlockedField] == [RoleField] + [BlockedField];
    assert [BlockedField] == [BlockedField] + [];
    KeysAcceptedCons(RoleField, [BlockedField], m, isEmail);
    KeysAcceptedCons(BlockedField, [], m, isEmail);
    RoleFieldAccepts(m, isEmail);
    BlockedFieldAccepts(m, isEmail);
  }

  lemma UserFieldsAccepted(m: map<string, Json>, isEmail: string -> bool)
    ensures KeysAccepted(UserSchema.shape, m, isEmail) <==> UserObjectValid(Some(JObject(m)))
  {
    var rest := [RoleField, BlockedField];
    assert UserSchema.shape == [NameField] + ([EmailField] + ([PasswordField] + rest));
    KeysAcceptedCons(NameField, [EmailField] + ([PasswordField] + rest), m, isEmail);
    KeysAcceptedCons(EmailField, [PasswordField] + rest, m, isEmail);
    KeysAcceptedCons(PasswordField, rest, m, isEmail);
    OptionalFieldsAccepted(m, isEmail);
    PlainStringAccepts(NameField, m, isEmail);
    PlainStringAccepts(EmailField, m, isEmail);
    PlainStringAccepts(PasswordField, m, isEmail);
  }

  lemma UserSchemaAccepts(v: Option<Json>, isEmail: string -> bool)
    ensures Issues(UserSchema, [], v, isEmail) == [] <==> UserObjectValid(v)
  {
    NoIssuesIffAccepts(UserSchema, [], v, isEmail);
    if v.Some? && v.value.JObject? {
      AcceptsObject(UserSchema.shape, v.value.members, isEmail);
      UserFieldsAccepted(v.value.members, isEmail);
    }
  }

  /** Handed the request-validation input, the flat schema always reports a missing name at the top level. */
  lemma RequestInputLacksName(body: Option<Json>, cookies: Option<Json>, isEmail: string -> bool)
    ensures Issue([Key("name")], "Name is required") in Issues(UserSchema, [], Some(RequestInput(body, cookies)), isEmail)
  {
    var input := RequestInput(body, cookies);
    assert "name" !in input.members;
    assert [] + [Key("name")] == [Key("name")];
    ShapeIssuesInclude(UserSchema, 0, 0, [], input.members, isEmail, Issue([Key("name")], "Name is required"));
  }
}
