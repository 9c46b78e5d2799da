/**
 * The request schemas of the register and login routes.  Both check the
 * fields under the `body` key of the validated object.
 */
module AuthValidation {
  import opened Wrappers
  import opened Json
  import opened JsString
  import opened Zod

  const EmailField: (string, Schema) :=
    ("email", StringSchema("Email is required", [EmailFormat("Invalid email address")]))

  const PasswordField: (string, Schema) :=
    ("password", StringSchema("Password is required", [
      MinLength(6, "Password must be at least 6 characters"),
      MaxLength(20, "Password must be at most 20 characters")]))

  const NameField: (string, Schema) :=
    ("name", StringSchema("Name is required", [MinLength(5, "Name must be at least 5 characters")]))

  const RegisterBodySchema: Schema := ObjectSchema([NameField, EmailField, PasswordField])

  const RegisterUserSchema: Schema := ObjectSchema([("body", RegisterBodySchema)])

  const LoginBodySchema: Schema := ObjectSchema([EmailField, PasswordField])

  const LoginUserSchema: Schema := ObjectSchema([("body", LoginBodySchema)])

  /** A password of 6 to 20 UTF-16 units. */
  predicate PasswordValid(password: Option<string>) {
    password.Some? && 6 <= Utf16Length(password.value) <= 20
  }

  predicate EmailValid(email: Option<string>, isEmail: string -> bool) {
    email.Some? && isEmail(email.value)
  }

  /** The body the login schema accepts: an email and a bounded password; other keys are ignored. */
  predicate LoginBodyValid(body: Option<Json>, isEmail: string -> bool) {
    && body.Some? && body.value.JObject?
    && EmailValid(StringMember(body.value.members, "email"), isEmail)
    && PasswordValid(StringMember(body.value.members, "password"))
  }

  /** The register body: a login body plus a name of at least 5 UTF-16 units. */
  predicate RegisterBodyValid(body: Option<Json>, isEmail: string -> bool) {
    && LoginBodyValid(body, isEmail)
    && StringMember(body.value.members, "name").Some?
    && Utf16Length(StringMember(body.value.members, "name").value) >= 5
  }

  lemma NameFieldAccepts(v: Option<Json>, isEmail: string -> bool)
    ensures Accepts(NameField.1, v, isEmail) <==> v.Some? && v.value.JString? && Utf16Length(v.value.s) >= 5
  {
    var checks := NameField.1.checks;
    assert |checks| == 1 && checks[0] == MinLength(5, "Name must be at least 5 characters");
  }

  lemma EmailFieldAccepts(v: Option<Json>, isEmail: string -> bool)
    ensures Accepts(EmailField.1, v, isEmail)
        <==> v.Some? && v.value.JString? && isEmail(v.value.s)
  {
    var checks := EmailField.1.checks;
    assert |checks| == 1 && checks[0] == EmailFormat("Invalid email address");
  }

  lemma PasswordFieldAccepts(v: Option<Json>, isEmail: string -> bool)
    ensures Accepts(PasswordField.1, v, isEmail)
        <==> v.Some? && v.value.JString? && 6 <= Utf16Length(v.value.s) <= 20
  {
    var checks := PasswordField.1.checks;
    assert |checks| == 2 && checks[0].MinLength? && checks[0].bound == 6 && checks[1].MaxLength? && checks[1].bound == 20;
    if v.Some? && v.value.JString? {
      assert Passes(checks[0], v.value.s, isEmail) && Passes(checks[1], v.value.s, isEmail)
        ==> forall i :: 0 <= i < |checks| ==> Passes(checks[i], v.value.s, isEmail);
    }
  }

  lemma StringMemberOfLookup(m: map<string, Json>, key: string)
    ensures var v := Lookup(m, key);
      (v.Some? && v.value.JString?) <==> StringMember(m, key).Some?
    ensures StringMember(m, key).Some? ==> Lookup(m, key).value.s == StringMember(m, key).value
  {
  }

  lemma RegisterBodyAccepts(m: map<string, Json>, isEmail: string -> bool)
    ensures Accepts(RegisterBodySchema, Some(JObject(m)), isEmail) <==> RegisterBodyValid(Some(JObject(m)), isEmail)
  {
    AcceptsObject(RegisterBodySchema.shape, m, isEmail);
    assert RegisterBodySchema.shape == [NameField] + [EmailField, PasswordField];
    assert [EmailField, PasswordField] == [EmailField] + [PasswordField];
    assert [PasswordField] == [PasswordField] + [];
    KeysAcceptedCons(NameField, [EmailField, PasswordField], m, isEmail);
    KeysAcceptedCons(EmailField, [PasswordField], m, isEmail);
    KeysAcceptedCons(PasswordField, [], m, isEmail);
    NameFieldAccepts(Lookup(m, "name"), isEmail);
    EmailFieldAccepts(Lookup(m, "email"), isEmail);
    PasswordFieldAccepts(Lookup(m, "password"), isEmail);
    StringMemberOfLookup(m, "name");
    StringMemberOfLookup(m, "email");
    StringMemberOfLookup(m, "password");
  }

  lemma RegisterSchemaAccepts(body: Option<Json>, cookies: Option<Json>, isEmail: string -> bool)
    ensures Issues(RegisterUserSchema, [], Some(RequestInput(body, cookies)), isEmail) == []
        <==> RegisterBodyValid(body, isEmail)
  {
    NoIssuesIffAccepts(RegisterUserSchema, [], Some(RequestInput(body, cookies)), isEmail);
    BodyWrapperAccepts(RegisterBodySchema, body, cookies, isEmail);
    if body.Some? && body.value.JObject? {
      RegisterBodyAccepts(body.value.members, isEmail);
    }
  }

  lemma LoginBodyAccepts(m: map<string, Json>, isEmail: string -> bool)
    ensures Accepts(LoginBodySchema, Some(JObject(m)), isEmail) <==> LoginBodyValid(Some(JObject(m)), isEmail)
  {
    AcceptsObject(LoginBodySchema.shape, m, isEmail);
    assert LoginBodySchema.shape == [EmailField] + [PasswordField];
    assert [PasswordField] == [PasswordField] + [];
    KeysAcceptedCons(EmailField, [PasswordField], m, isEmail);
    KeysAcceptedCons(PasswordField, [], m, isEmail);
    EmailFieldAccepts(Lookup(m, "email"), isEmail);
    PasswordFieldAccepts(Lookup(m, "password"), isEmail);
    StringMemberOfLookup(m, "email");
    StringMemberOfLookup(m, "password");
  }

  lemma LoginSchemaAccepts(body: Option<Json>, cookies: Option<Json>, isEmail: string -> bool)
    ensures Issues(LoginUserSchema, [], Some(RequestInput(body, cookies)), isEmail) == []
        <==> LoginBodyValid(body, isEmail)
  {
    NoIssuesIffAccepts(LoginUserSchema, [], Some(RequestInput(body, cookies)), isEmail);
    BodyWrapperAccepts(LoginBodySchema, body, cookies, isEmail);
    if body.Some? && body.value.JObject? {
      LoginBodyAccepts(body.value.members, isEmail);
    }
  }

  /** Every request that passes the register schema also passes the login schema. */
  lemma RegisterRequestPassesLogin(body: Option<Json>, cookies: Option<Json>, isEmail: string -> bool)
    requires Issues(RegisterUserSchema, [], Some(RequestInput(body, cookies)), isEmail) == []
    ensures Issues(LoginUserSchema, [], Some(RequestInput(body, cookies)), isEmail) == []
  {
    RegisterSchemaAccepts(body, cookies, isEmail);
    LoginSchemaAccepts(body, cookies, isEmail);
  }

  /** A name shorter than 5 is reported at body.name with the schema's own message. */
  lemma ShortNameReported(body: map<string, Json>, cookies: Option<Json>, isEmail: string -> bool)
    requires StringMember(body, "name").Some? && Utf16Length(StringMember(body, "name").value) < 5
    ensures Issue([Key("body"), Key("name")], "Name must be at least 5 characters")
         in Issues(RegisterUserSchema, [], Some(RequestInput(Some(JObject(body)), cookies)), isEmail)
  {
    var input := RequestInput(Some(JObject(body)), cookies);
    var inner := RegisterUserSchema.shape[0].1;
    var nameField := inner.shape[0].1;
    var path := [Key("body"), Key("name")];
    var issue := Issue(path, "Name must be at least 5 characters");
    BodyOfRequestInput(Some(JObject(body)), cookies);
    assert nameField.checks[0] == MinLength(5, "Name must be at least 5 characters");
    assert issue in CheckIssues(nameField.checks, path, StringMember(body, "name").value, isEmail);
    assert [Key("body")] + [Key(inner.shape[0].0)] == path;
    ShapeIssuesInclude(inner, 0, 0, [Key("body")], body, isEmail, issue);
    assert issue in Issues(inner, [Key("body")], Some(JObject(body)), isEmail);
    assert [] + [Key(RegisterUserSchema.shape[0].0)] == [Key("body")];
    ShapeIssuesInclude(RegisterUserSchema, 0, 0, [], input.members, isEmail, issue);
  }

  /** A request without a body is rejected with a single issue at `body`. */
  lemma MissingBodyReported(cookies: Option<Json>, isEmail: string -> bool)
    ensures Issues(RegisterUserSchema, [], Some(RequestInput(None, cookies)), isEmail)
         == [Issue([Key("body")], "Required")]
    ensures Issues(LoginUserSchema, [], Some(RequestInput(None, cookies)), isEmail)
         == [Issue([Key("body")], "Required")]
  {
    var input := RequestInput(None, cookies);
    BodyOfRequestInput(None, cookies);
    var path: seq<PathItem> := [] + [Key("body")];
    assert path == [Key("body")];
    forall schema | schema == RegisterUserSchema || schema == LoginUserSchema
      ensures Issues(schema, [], Some(input), isEmail) == [Issue([Key("body")], "Required")]
    {
      assert Issues(schema.shape[0].1, path, None, isEmail) == [Issue(path, "Required")];
      assert ShapeIssues(schema, 1, [], input.members, isEmail) == [];
      assert ShapeIssues(schema, 0, [], input.members, isEmail) == [Issue(path, "Required")];
    }
  }
}
