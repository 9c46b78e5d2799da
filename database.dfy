/**
 * The two collections the service uses, as one object whose fields the
 * operations update in place: users and blogs by id.  Ids are handed out
 * in order from `nextId`, and the unique index keeps emails distinct.
 */
module Database {
  import opened Wrappers
  import opened UserModel
  import opened BlogModel
  import opened ErrorTypes

  /** The users after `findByIdAndUpdate(id, { isBlocked: true })`: the flag is set and the update timestamp bumped. */
  function WithBlocked(users: map<ObjectId, UserRecord>, id: ObjectId, now: int): (r: map<ObjectId, UserRecord>)
    requires id in users
    ensures r.Keys == users.Keys
    ensures r[id].isBlocked && r[id].updatedAt == now
    ensures r[id] == users[id].(isBlocked := true, updatedAt := now)
    ensures forall other :: other in users && other != id ==> r[other] == users[other]
  {
    users[id := users[id].(isBlocked := true, updatedAt := now)]
  }

  /** Blocking changes no email, so the unique index still holds. */
  lemma WithBlockedKeepsEmailsUnique(users: map<ObjectId, UserRecord>, id: ObjectId, now: int)
    requires id in users && UniqueEmails(users)
    ensures UniqueEmails(WithBlocked(users, id, now))
  {
    var r := WithBlocked(users, id, now);
    forall a, b | a in r && b in r && r[a].email == r[b].email
      ensures a == b
    {
      assert r[a].email == users[a].email && r[b].email == users[b].email;
    }
  }

  /** What `User.create` does with the given fields: validation first, then the unique index. */
  function CreateUserOutcome(users: map<ObjectId, UserRecord>, f: UserFields, now: int): (r: Result<UserRecord, Error>)
    ensures NewUser(f, now).Err? ==> r == Err(DocumentValidationError(NewUser(f, now).error))
    ensures NewUser(f, now).Ok? && EmailTaken(users, f.email.value)
        ==> r == Err(DuplicateKeyError(Some([("email", f.email.value)])))
    ensures r.Ok? <==> NewUser(f, now).Ok? && !EmailTaken(users, f.email.value)
    ensures r.Ok? ==> r == Ok(NewUser(f, now).value)
  {
    var doc := NewUser(f, now);
    if doc.Err? then Err(DocumentValidationError(doc.error))
    else if EmailTaken(users, doc.value.email) then Err(DuplicateKeyError(Some([("email", doc.value.email)])))
    else Ok(doc.value)
  }

  class Store {
    var users: map<ObjectId, UserRecord>
    var blogs: map<ObjectId, BlogRecord>
    var nextId: ObjectId

    ghost predicate Valid()
      reads this
    {
      && (forall id :: id in users ==> id < nextId)
      && (forall id :: id in blogs ==> id < nextId)
      && UniqueEmails(users)
    }

    constructor ()
      ensures Valid() && users == map[] && blogs == map[] && nextId == 0
    {
      users, blogs, nextId := map[], map[], 0;
    }

    /** `User.create(fields)`: on success the new user gets a fresh id and nothing else changes. */
    method CreateUser(f: UserFields, now: int) returns (r: Result<ObjectId, Error>)
      requires Valid()
      modifies this
      ensures Valid() && blogs == old(blogs)
      ensures var outcome := CreateUserOutcome(old(users), f, now);
        && (outcome.Err? ==> r == Err(outcome.error) && users == old(users) && nextId == old(nextId))
        && (outcome.Ok? ==> (r == Ok(old(nextId)) && old(nextId) !in old(users)
                             && users == old(users)[old(nextId) := outcome.value] && nextId == old(nextId) + 1))
    {
      var outcome := CreateUserOutcome(users, f, now);
      if outcome.Err? {
        r := Err(outcome.error);
      } else {
        var id := nextId;
        users := users[id := outcome.value];
        nextId := nextId + 1;
        r := Ok(id);
      }
    }

    /** `Blog.create(fields)`. */
    method CreateBlog(f: BlogFields, now: int) returns (r: Result<ObjectId, Error>)
      requires Valid()
      modifies this
      ensures Valid() && users == old(users)
      ensures NewBlog(f, now).Err? ==>
        (r == Err(DocumentValidationError(NewBlog(f, now).error)) && blogs == old(blogs) && nextId == old(nextId))
      ensures NewBlog(f, now).Ok? ==>
        (r == Ok(old(nextId)) && old(nextId) !in old(blogs)
         && blogs == old(blogs)[old(nextId) := NewBlog(f, now).value] && nextId == old(nextId) + 1)
    {
      var doc := NewBlog(f, now);
      if doc.Err? {
        r := Err(DocumentValidationError(doc.error));
      } else {
        var id := nextId;
        blogs := blogs[id := doc.value];
        nextId := nextId + 1;
        r := Ok(id);
      }
    }

    /** `User.findByIdAndUpdate(id, { isBlocked: true }, { new: true })`: the updated document, or null. */
    method SetBlocked(id: ObjectId, now: int) returns (updated: Option<UserRecord>)
      requires Valid()
      modifies this
      ensures Valid() && blogs == old(blogs) && nextId == old(nextId)
      ensures id in old(users) ==> users == WithBlocked(old(users), id, now) && updated == Some(users[id])
      ensures id !in old(users) ==> users == old(users) && updated.None?
    {
      if id in users {
        WithBlockedKeepsEmailsUnique(users, id, now);
        users := WithBlocked(users, id, now);
        updated := Some(users[id]);
      } else {
        updated := None;
      }
    }

    /** `Blog.findByIdAndDelete(id)`: the deleted document, or null. */
    method DeleteBlogById(id: ObjectId) returns (deleted: Option<BlogRecord>)
      requires Valid()
      modifies this
      ensures Valid() && users == old(users) && nextId == old(nextId)
      ensures blogs == old(blogs) - {id}
      ensures deleted == if id in old(blogs) then Some(old(blogs)[id]) else None
    {
      deleted := if id in blogs then Some(blogs[id]) else None;
      blogs := blogs - {id};
    }
  }
}
