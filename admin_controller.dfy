/**
 * The admin handlers: block a user and delete a blog.  Each checks its
 * guards in order (the first failure is thrown), makes one store update,
 * and sends a success envelope; a thrown error is sent and forwarded.
 */
module AdminController {
  import opened Wrappers
  import opened Json
  import opened JsString
  import opened ErrorTypes
  import opened UserModel
  import opened BlogModel
  import opened Database
  import opened Http
  import opened ErrorEnvelope
  import RE = ResponseEnvelope

  /** The guards of `blockUser`: id given, id valid, user found, user not yet blocked. */
  function BlockUserGuard(userId: Option<string>, objectId: string -> Option<ObjectId>, users: map<ObjectId, UserRecord>)
    : (r: Result<ObjectId, Error>)
    ensures !Truthy(userId) ==> r == Err(AppError(BAD_REQUEST, "User ID is required"))
    ensures Truthy(userId) && objectId(userId.value).None? ==> r == Err(AppError(BAD_REQUEST, "Invalid user ID"))
    ensures Truthy(userId) && objectId(userId.value).Some? ==>
      var id := objectId(userId.value).value;
      && (id !in users ==> r == Err(AppError(NOT_FOUND, "User not found")))
      && (id in users && users[id].isBlocked ==> r == Err(AppError(BAD_REQUEST, "User is already blocked")))
      && (id in users && !users[id].isBlocked ==> r == Ok(id))
  {
    if !Truthy(userId) then Err(AppError(BAD_REQUEST, "User ID is required"))
    else if objectId(userId.value).None? then Err(AppError(BAD_REQUEST, "Invalid user ID"))
    else
      var id := objectId(userId.value).value;
      if id !in users then Err(AppError(NOT_FOUND, "User not found"))
      else if users[id].isBlocked then Err(AppError(BAD_REQUEST, "User is already blocked"))
      else Ok(id)
  }

  /** The success envelope carries the document read before the update. */
  function BlockedResponse(id: ObjectId, before: UserRecord): RE.ResponseData {
    RE.ResponseData(OK, true, "User blocked successfully", Some(UserJson(id, before)))
  }

  /** A successful block names an existing, unblocked user, and the data sent still shows it unblocked. */
  lemma BlockedResponseShowsUnblocked(
    userId: Option<string>, objectId: string -> Option<ObjectId>, users: map<ObjectId, UserRecord>)
    requires BlockUserGuard(userId, objectId, users).Ok?
    ensures var id := BlockUserGuard(userId, objectId, users).value;
      && id in users && !users[id].isBlocked
      && RE.Envelope(BlockedResponse(id, users[id])).members["data"].members["isBlocked"] == JBool(false)
  {
  }

  /** Blocking twice: the second attempt fails with "User is already blocked". */
  lemma SecondBlockFails(
    userId: Option<string>, objectId: string -> Option<ObjectId>, users: map<ObjectId, UserRecord>, now: int)
    requires BlockUserGuard(userId, objectId, users).Ok?
    ensures BlockUserGuard(userId, objectId, users).value in users
    ensures BlockUserGuard(userId, objectId, WithBlocked(users, BlockUserGuard(userId, objectId, users).value, now))
         == Err(AppError(BAD_REQUEST, "User is already blocked"))
  {
  }

  /**
   * `blockUser`: on a passing guard only the target's `isBlocked` (and its
   * update time) changes and the pre-update document is sent with 200; on
   * a failing guard the store is unchanged and the error path is taken.
   */
  method BlockUser(
    res: Response, db: Store, userId: Option<string>, objectId: string -> Option<ObjectId>, now: int,
    simplify: Error -> ErrorResponse, env: string)
    returns (next: NextCall)
    requires db.Valid()
    modifies db, res
    ensures db.Valid() && db.blogs == old(db.blogs) && db.nextId == old(db.nextId)
    ensures var g := BlockUserGuard(userId, objectId, old(db.users));
      && (g.Ok? ==> && db.users == WithBlocked(old(db.users), g.value, now)
                    && res.writes == old(res.writes) + [Write(OK, RE.Envelope(BlockedResponse(g.value, old(db.users)[g.value])))]
                    && next == NotCalled)
      && (g.Err? ==> && db.users == old(db.users)
                     && res.writes == old(res.writes) + [Write(simplify(g.error).statusCode, Envelope(simplify(g.error), env))]
                     && next == CalledWith(g.error))
  {
    var g := BlockUserGuard(userId, objectId, db.users);
    if g.Err? {
      next := SendErrorAndForward(res, g.error, simplify, env);
    } else {
      var user := db.users[g.value];
      var updated := db.SetBlocked(g.value, now);
      RE.SendResponse(res, BlockedResponse(g.value, user));
      next := NotCalled;
    }
  }

  /** The guards of `deleteBlog`: id given, id valid, blog found. */
  function DeleteBlogGuard(blogId: Option<string>, objectId: string -> Option<ObjectId>, blogs: map<ObjectId, BlogRecord>)
    : (r: Result<ObjectId, Error>)
    ensures !Truthy(blogId) ==> r == Err(AppError(BAD_REQUEST, "Blog ID is required"))
    ensures Truthy(blogId) && objectId(blogId.value).None? ==> r == Err(AppError(BAD_REQUEST, "Invalid blog ID"))
    ensures Truthy(blogId) && objectId(blogId.value).Some? ==>
      var id := objectId(blogId.value).value;
      && (id !in blogs ==> r == Err(AppError(NOT_FOUND, "Blog not found")))
      && (id in blogs ==> r == Ok(id))
  {
    if !Truthy(blogId) then Err(AppError(BAD_REQUEST, "Blog ID is required"))
    else if objectId(blogId.value).None? then Err(AppError(BAD_REQUEST, "Invalid blog ID"))
    else
      var id := objectId(blogId.value).value;
      if id !in blogs then Err(AppError(NOT_FOUND, "Blog not found")) else Ok(id)
  }

  const DeletedResponse := RE.ResponseData(OK, true, "Blog deleted successfully", None)

  /** The delete envelope has no `data` key. */
  lemma DeletedResponseHasNoData()
    ensures RE.Envelope(DeletedResponse).members.Keys == {"statusCode", "success", "message"}
    ensures RE.ReadEnvelope(RE.Envelope(DeletedResponse)) == Some(DeletedResponse)
  {
    RE.ReadEnvelopeRoundTrip(DeletedResponse);
  }

  /** Deleting twice: the second attempt fails with "Blog not found". */
  lemma SecondDeleteFails(blogId: Option<string>, objectId: string -> Option<ObjectId>, blogs: map<ObjectId, BlogRecord>)
    requires DeleteBlogGuard(blogId, objectId, blogs).Ok?
    ensures DeleteBlogGuard(blogId, objectId, blogs - {DeleteBlogGuard(blogId, objectId, blogs).value})
         == Err(AppError(NOT_FOUND, "Blog not found"))
  {
  }

  /** `deleteBlog`: on a passing guard exactly that blog is removed and a data-less 200 is sent. */
  method DeleteBlog(
    res: Response, db: Store, blogId: Option<string>, objectId: string -> Option<ObjectId>,
    simplify: Error -> ErrorResponse, env: string)
    returns (next: NextCall)
    requires db.Valid()
    modifies db, res
    ensures db.Valid() && db.users == old(db.users) && db.nextId == old(db.nextId)
    ensures var g := DeleteBlogGuard(blogId, objectId, old(db.blogs));
      && (g.Ok? ==> && db.blogs == old(db.blogs) - {g.value}
                    && res.writes == old(res.writes) + [Write(OK, RE.Envelope(DeletedResponse))]
                    && next == NotCalled)
      && (g.Err? ==> && db.blogs == old(db.blogs)
                     && res.writes == old(res.writes) + [Write(simplify(g.error).statusCode, Envelope(simplify(g.error), env))]
                     && next == CalledWith(g.error))
  {
    var g := DeleteBlogGuard(blogId, objectId, db.blogs);
    if g.Err? {
      next := SendErrorAndForward(res, g.error, simplify, env);
    } else {
      var deleted := db.DeleteBlogById(g.value);
      RE.SendResponse(res, DeletedResponse);
      next := NotCalled;
    }
  }
}
