/**
 * The part of the schema library's behaviour that the service's request
 * schemas use: objects (unknown keys are stripped, not rejected), strings
 * with `min`/`max`/`email` checks and a custom `required_error`, string
 * enums, booleans, and `optional()`.  Parsing collects every issue, in
 * the order of the schema's keys and of each string's checks, and the
 * value is accepted exactly when no issue is found.
 */
module Zod {
  import opened Wrappers
  import opened Json
  import opened JsString

  /** One step of an issue path (`string | number` in the source). */
  datatype PathItem = Key(name: string) | Index(position: int)

  datatype Issue = Issue(path: seq<PathItem>, message: string)

  datatype StringCheck =
    | MinLength(bound: nat, message: string)
    | MaxLength(bound: nat, message: string)
    | EmailFormat(message: string)

  datatype Schema =
    | StringSchema(requiredError: string, checks: seq<StringCheck>)
    | EnumSchema(options: seq<string>)
    | BooleanSchema
    | OptionalSchema(inner: Schema)
    | ObjectSchema(shape: seq<(string, Schema)>)

  /** The type name reported as "received" in an invalid-type issue. */
  function ParsedType(v: Option<Json>): string {
    match v
    case None => "undefined"
    case Some(JNull) => "null"
    case Some(JBool(_)) => "boolean"
    case Some(JNumber(_)) => "number"
    case Some(JString(_)) => "string"
    case Some(JArray(_)) => "array"
    case Some(JObject(_)) => "object"
  }

  /** The library's default message for a value of the wrong type. */
  function InvalidTypeMessage(expected: string, v: Option<Json>): string {
    if v.None? then "Required" else "Expected " + expected + ", received " + ParsedType(v)
  }

  /** The enum's options quoted and separated by " | ". */
  function JoinValues(options: seq<string>): string {
    if options == [] then ""
    else if |options| == 1 then "'" + options[0] + "'"
    else "'" + options[0] + "' | " + JoinValues(options[1..])
  }

  /** String lengths are JavaScript lengths (UTF-16 code units). */
  predicate Passes(check: StringCheck, s: string, isEmail: string -> bool) {
    match check
    case MinLength(n, _) => Utf16Length(s) >= n
    case MaxLength(n, _) => Utf16Length(s) <= n
    case EmailFormat(_) => isEmail(s)
  }

  /** Every check of a string runs; each failing one adds its own message. */
  function CheckIssues(checks: seq<StringCheck>, path: seq<PathItem>, s: string, isEmail: string -> bool)
    : (issues: seq<Issue>)
    ensures issues == [] <==> forall i :: 0 <= i < |checks| ==> Passes(checks[i], s, isEmail)
    ensures forall j :: 0 <= j < |issues| ==> issues[j].path == path
    ensures forall i :: 0 <= i < |checks| && !Passes(checks[i], s, isEmail) ==> Issue(path, checks[i].message) in issues
  {
    if checks == [] then []
    else
      var first := if Passes(checks[0], s, isEmail) then [] else [Issue(path, checks[0].message)];
      var rest := CheckIssues(checks[1..], path, s, isEmail);
      assert forall i :: 1 <= i < |checks| ==> checks[i] == checks[1..][i - 1];
      first + rest
  }

  /** The issues found when `v` (None: undefined) is parsed at `path`. */
  function Issues(schema: Schema, path: seq<PathItem>, v: Option<Json>, isEmail: string -> bool): (issues: seq<Issue>)
    ensures forall k :: 0 <= k < |issues| ==> Below(issues[k].path, path)
    decreases schema, 1, 0
  {
    match schema
    case StringSchema(required, checks) =>
      if v.Some? && v.value.JString? then CheckIssues(checks, path, v.value.s, isEmail)
      else [Issue(path, if v.None? then required else InvalidTypeMessage("string", v))]
    case EnumSchema(options) =>
      if v.Some? && v.value.JString? then
        if v.value.s in options then []
        else [Issue(path, "Invalid enum value. Expected " + JoinValues(options) + ", received '" + v.value.s + "'")]
      else [Issue(path, InvalidTypeMessage(JoinValues(options), v))]
    case BooleanSchema =>
      if v.Some? && v.value.JBool? then [] else [Issue(path, InvalidTypeMessage("boolean", v))]
    case OptionalSchema(inner) =>
      if v.None? then [] else Issues(inner, path, v, isEmail)
    case ObjectSchema(shape) =>
      if v.Some? && v.value.JObject? then ShapeIssues(schema, 0, path, v.value.members, isEmail)
      else [Issue(path, InvalidTypeMessage("object", v))]
  }

  /** The issues of the keys of an object schema from position `i` on, in key order. */
  function ShapeIssues(schema: Schema, i: nat, path: seq<PathItem>, members: map<string, Json>, isEmail: string -> bool)
    : (issues: seq<Issue>)
    requires schema.ObjectSchema? && i <= |schema.shape|
    ensures forall k :: 0 <= k < |issues| ==> Below(issues[k].path, path)
    decreases schema, 0, |schema.shape| - i
  {
    if i == |schema.shape| then []
    else
      var key := schema.shape[i].0;
      var here := Issues(schema.shape[i].1, path + [Key(key)], Lookup(members, key), isEmail);
      forall k | 0 <= k < |here| ensures Below(here[k].path, path) {
        BelowExtended(here[k].path, path, Key(key));
      }
      here + ShapeIssues(schema, i + 1, path, members, isEmail)
  }

  /** `p` is `path` or lies under it. */
  predicate Below(p: seq<PathItem>, path: seq<PathItem>) {
    |path| <= |p| && p[..|path|] == path
  }

  lemma BelowExtended(p: seq<PathItem>, path: seq<PathItem>, item: PathItem)
    requires Below(p, path + [item])
    ensures Below(p, path)
  {
    assert p[..|path|] == (path + [item])[..|path|];
  }

  /** The object the request-validation middleware hands to a schema: the body and the cookies. */
  function RequestInput(body: Option<Json>, cookies: Option<Json>): Json {
    JObject(Optional("body", body) + Optional("cookies", cookies))
  }

  /** What the schema accepts, stated without issues. */
  ghost predicate Accepts(schema: Schema, v: Option<Json>, isEmail: string -> bool)
    ensures v.None? ==> (Accepts(schema, v, isEmail) <==> schema.OptionalSchema?)
    decreases schema
  {
    match schema
    case StringSchema(_, checks) =>
      v.Some? && v.value.JString? && forall i :: 0 <= i < |checks| ==> Passes(checks[i], v.value.s, isEmail)
    case EnumSchema(options) => v.Some? && v.value.JString? && v.value.s in options
    case BooleanSchema => v.Some? && v.value.JBool?
    case OptionalSchema(inner) => v.None? || Accepts(inner, v, isEmail)
    case ObjectSchema(shape) =>
      v.Some? && v.value.JObject?
      && forall i :: 0 <= i < |shape| ==> Accepts(shape[i].1, Lookup(v.value.members, shape[i].0), isEmail)
  }

  /** Parsing succeeds (no issue at all) exactly when the schema accepts the value. */
  lemma {:induction false} NoIssuesIffAccepts(schema: Schema, path: seq<PathItem>, v: Option<Json>, isEmail: string -> bool)
    ensures Issues(schema, path, v, isEmail) == [] <==> Accepts(schema, v, isEmail)
    decreases schema, 1, 0
  {
    match schema
    case StringSchema(_, _) =>
    case EnumSchema(_) =>
    case BooleanSchema =>
    case OptionalSchema(inner) =>
      if v.Some? {
        NoIssuesIffAccepts(inner, path, v, isEmail);
      }
    case ObjectSchema(shape) =>
      if v.Some? && v.value.JObject? {
        NoShapeIssuesIffAccepts(schema, 0, path, v.value.members, isEmail);
      }
  }

  lemma {:induction false} NoShapeIssuesIffAccepts(
    schema: Schema, i: nat, path: seq<PathItem>, members: map<string, Json>, isEmail: string -> bool)
    requires schema.ObjectSchema? && i <= |schema.shape|
    ensures ShapeIssues(schema, i, path, members, isEmail) == []
        <==> forall j :: i <= j < |schema.shape| ==>
               Accepts(schema.shape[j].1, Lookup(members, schema.shape[j].0), isEmail)
    decreases schema, 0, |schema.shape| - i
  {
    if i < |schema.shape| {
      var key := schema.shape[i].0;
      NoIssuesIffAccepts(schema.shape[i].1, path + [Key(key)], Lookup(members, key), isEmail);
      NoShapeIssuesIffAccepts(schema, i + 1, path, members, isEmail);
    }
  }

  /** The keys `shape` names are all accepted in `members`, stated key by key. */
  ghost predicate KeysAccepted(shape: seq<(string, Schema)>, members: map<string, Json>, isEmail: string -> bool) {
    shape == [] || (Accepts(shape[0].1, Lookup(members, shape[0].0), isEmail) && KeysAccepted(shape[1..], members, isEmail))
  }

  lemma {:induction false} AcceptsObject(shape: seq<(string, Schema)>, members: map<string, Json>, isEmail: string -> bool)
    ensures Accepts(ObjectSchema(shape), Some(JObject(members)), isEmail) <==> KeysAccepted(shape, members, isEmail)
  {
    if shape != [] {
      AcceptsObject(shape[1..], members, isEmail);
      assert forall i :: 1 <= i < |shape| ==> shape[i] == shape[1..][i - 1];
    }
  }

  /** One key of a shape peeled off the front. */
  lemma KeysAcceptedCons(field: (string, Schema), tail: seq<(string, Schema)>, members: map<string, Json>, isEmail: string -> bool)
    ensures KeysAccepted([field] + tail, members, isEmail)
        <==> Accepts(field.1, Lookup(members, field.0), isEmail) && KeysAccepted(tail, members, isEmail)
  {
    assert ([field] + tail)[0] == field && ([field] + tail)[1..] == tail;
  }

  /** The validated object's `body` key holds the request body. */
  lemma BodyOfRequestInput(body: Option<Json>, cookies: Option<Json>)
    ensures Lookup(RequestInput(body, cookies).members, "body") == body
  {
    var members := RequestInput(body, cookies).members;
    if body.Some? {
      assert "body" in members && members["body"] == body.value;
    } else {
      assert "body" !in members;
    }
  }

  /** A route schema `{ body: inner }` accepts the request exactly when `inner` accepts its body. */
  lemma BodyWrapperAccepts(inner: Schema, body: Option<Json>, cookies: Option<Json>, isEmail: string -> bool)
    ensures Accepts(ObjectSchema([("body", inner)]), Some(RequestInput(body, cookies)), isEmail)
        <==> Accepts(inner, body, isEmail)
  {
    var members := RequestInput(body, cookies).members;
    AcceptsObject([("body", inner)], members, isEmail);
    KeysAcceptedCons(("body", inner), [], members, isEmail);
    assert [("body", inner)] + [] == [("body", inner)];
    BodyOfRequestInput(body, cookies);
  }

  /** An issue found at the key in position `k` is reported in the object's issue list. */
  lemma {:induction false} ShapeIssuesInclude(
    schema: Schema, i: nat, k: nat, path: seq<PathItem>, members: map<string, Json>, isEmail: string -> bool, issue: Issue)
    requires schema.ObjectSchema? && i <= k < |schema.shape|
    requires issue in Issues(schema.shape[k].1, path + [Key(schema.shape[k].0)], Lookup(members, schema.shape[k].0), isEmail)
    ensures issue in ShapeIssues(schema, i, path, members, isEmail)
    decreases |schema.shape| - i
  {
    if i < k {
      ShapeIssuesInclude(schema, i + 1, k, path, members, isEmail, issue);
    }
  }
}
