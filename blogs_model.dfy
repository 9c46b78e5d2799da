/**
 * The blog document: required title and content, a required reference
 * to the author's user id, a published flag defaulting to true, and
 * timestamps.  The reference is not checked against the user collection.
 */
module BlogModel {
  import opened Wrappers
  import opened JsString
  import opened UserModel

  datatype BlogRecord = BlogRecord(
    title: string, content: string, author: ObjectId, isPublished: bool, createdAt: int, updatedAt: int)

  datatype BlogFields = BlogFields(
    title: Option<string>, content: Option<string>, author: Option<ObjectId>, isPublished: Option<bool>)

  function MissingBlogPaths(f: BlogFields): set<string> {
    (if Truthy(f.title) then {} else {"title"})
    + (if Truthy(f.content) then {} else {"content"})
    + (if f.author.Some? then {} else {"author"})
  }

  function NewBlog(f: BlogFields, now: int): (r: Result<BlogRecord, set<string>>)
    ensures r.Ok? <==> Truthy(f.title) && Truthy(f.content) && f.author.Some?
    ensures r.Err? ==> r.error != {} && r.error <= {"title", "content", "author"}
    ensures r.Ok? ==> r.value.title == f.title.value && r.value.content == f.content.value
                      && r.value.author == f.author.value
    ensures r.Ok? ==> r.value.isPublished == (f.isPublished.None? || f.isPublished.value)
    ensures r.Ok? ==> r.value.createdAt == now && r.value.updatedAt == now
  {
    var missing := MissingBlogPaths(f);
    if missing != {} then Err(missing)
    else Ok(BlogRecord(f.title.value, f.content.value, f.author.value, f.isPublished.GetOr(true), now, now))
  }
}
