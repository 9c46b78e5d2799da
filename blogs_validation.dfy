/** The request schemas of blog creation and blog update, which are the same schema. */
module BlogValidation {
  import opened Wrappers
  import opened Json
  import opened JsString
  import opened Zod

  const TitleField: (string, Schema) :=
    ("title", StringSchema("Title is required", [
      MinLength(3, "Title must be at least 3 characters"),
      MaxLength(100, "Title must be at most 100 characters")]))

  const ContentField: (string, Schema) :=
    ("content", StringSchema("Content is required", [MinLength(10, "Content must be at least 10 characters")]))

  const BlogBodySchema: Schema := ObjectSchema([TitleField, ContentField])

  const CreateBlogSchema: Schema := ObjectSchema([("body", BlogBodySchema)])

  const UpdateBlogSchema: Schema := ObjectSchema([("body", BlogBodySchema)])

  /** A title of 3 to 100 UTF-16 units and a content of at least 10; other keys are ignored. */
  predicate BlogBodyValid(body: Option<Json>) {
    && body.Some? && body.value.JObject?
    && var title := StringMember(body.value.members, "title");
       && title.Some? && 3 <= Utf16Length(title.value) <= 100
       && var content := StringMember(body.value.members, "content");
          content.Some? && Utf16Length(content.value) >= 10
  }

  lemma TitleFieldAccepts(v: Option<Json>, isEmail: string -> bool)
    ensures Accepts(TitleField.1, v, isEmail) <==> v.Some? && v.value.JString? && 3 <= Utf16Length(v.value.s) <= 100
  {
    var checks := TitleField.1.checks;
    assert |checks| == 2 && checks[0].MinLength? && checks[0].bound == 3 && checks[1].MaxLength? && checks[1].bound == 100;
    if v.Some? && v.value.JString? {
      assert Passes(checks[0], v.value.s, isEmail) && Passes(checks[1], v.value.s, isEmail)
        ==> forall i :: 0 <= i < |checks| ==> Passes(checks[i], v.value.s, isEmail);
    }
  }

  lemma ContentFieldAccepts(v: Option<Json>, isEmail: string -> bool)
    ensures Accepts(ContentField.1, v, isEmail) <==> v.Some? && v.value.JString? && Utf16Length(v.value.s) >= 10
  {
    var checks := ContentField.1.checks;
    assert |checks| == 1 && checks[0] == MinLength(10, "Content must be at least 10 characters");
  }

  lemma BlogBodyAccepts(m: map<string, Json>, isEmail: string -> bool)
    ensures Accepts(BlogBodySchema, Some(JObject(m)), isEmail) <==> BlogBodyValid(Some(JObject(m)))
  {
    AcceptsObject(BlogBodySchema.shape, m, isEmail);
    assert BlogBodySchema.shape == [TitleField] + [ContentField];
    assert [ContentField] == [ContentField] + [];
    KeysAcceptedCons(TitleField, [ContentField], m, isEmail);
    KeysAcceptedCons(ContentField, [], m, isEmail);
    TitleFieldAccepts(Lookup(m, "title"), isEmail);
    ContentFieldAccepts(Lookup(m, "content"), isEmail);
    assert Lookup(m, "title").Some? && Lookup(m, "title").value.JString?
       ==> StringMember(m, "title") == Some(Lookup(m, "title").value.s);
    assert Lookup(m, "content").Some? && Lookup(m, "content").value.JString?
       ==> StringMember(m, "content") == Some(Lookup(m, "content").value.s);
  }

  lemma CreateBlogSchemaAccepts(body: Option<Json>, cookies: Option<Json>, isEmail: string -> bool)
    ensures Issues(CreateBlogSchema, [], Some(RequestInput(body, cookies)), isEmail) == []
        <==> BlogBodyValid(body)
  {
    NoIssuesIffAccepts(CreateBlogSchema, [], Some(RequestInput(body, cookies)), isEmail);
    BodyWrapperAccepts(BlogBodySchema, body, cookies, isEmail);
    if body.Some? && body.value.JObject? {
      BlogBodyAccepts(body.value.members, isEmail);
    }
  }

  /** Update accepts exactly the bodies that create accepts: both fields stay required on update. */
  lemma UpdateSchemaIsCreateSchema(body: Option<Json>, cookies: Option<Json>, isEmail: string -> bool)
    ensures Issues(UpdateBlogSchema, [], Some(RequestInput(body, cookies)), isEmail)
         == Issues(CreateBlogSchema, [], Some(RequestInput(body, cookies)), isEmail)
    ensures Issues(UpdateBlogSchema, [], Some(RequestInput(body, cookies)), isEmail) == []
        <==> BlogBodyValid(body)
  {
    CreateBlogSchemaAccepts(body, cookies, isEmail);
  }

  /** A body that breaks either field's bound is rejected. */
  lemma OutOfBoundsRejected(body: map<string, Json>, cookies: Option<Json>, isEmail: string -> bool)
    requires var title := StringMember(body, "title");
             var content := StringMember(body, "content");
             (title.Some? && Utf16Length(title.value) > 100) || (content.Some? && Utf16Length(content.value) < 10)
    ensures Issues(CreateBlogSchema, [], Some(RequestInput(Some(JObject(body)), cookies)), isEmail) != []
  {
    CreateBlogSchemaAccepts(Some(JObject(body)), cookies, isEmail);
  }
}
