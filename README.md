# Blog management service: a verified model of its core

This project models the decision logic of a small REST service for blogs
and users. The service is written against Express, Mongoose, Zod, JSON Web
Tokens and bcrypt. The model covers:

- the list-query builder (search alternatives, equality filter, sort
  direction);
- the access-control middleware: a short-circuiting chain of checks from the
  `Authorization` header to the role check, setting `req.user`, with its
  two-way error routing;
- the store: users and blogs held by id in one object whose methods update
  it in place, with the unique email index and the documents' defaults and
  timestamps;
- registration (hashed password, defaults applied) and login (lookup,
  blocked, password, token);
- the register and login handlers, with their exact response projections;
- the admin handlers `blockUser` and `deleteBlog`, each a guard sequence,
  one store update and a response;
- the request schemas of the register, login and blog routes, and the flat
  user schema. They are interpreted by a small model of the schema library,
  so both acceptance and the issue list are stated;
- the error normalisers for duplicate keys, cast failures and validation
  issues, and the success and error envelopes.

The token library, hashing, hash comparison, the object-id syntax check,
the email syntax check and the error simplifier are parameters of the
operations that use them. The clock (`now`) and the environment name
(`env`) are parameters as well. Nothing else is assumed about them.

The model follows the code, including behaviours a reader might not
expect:

- a sort order is descending only for the exact text `desc`;
- the search term is an unescaped regular expression, not a literal
  substring;
- sorting by `__proto__` is silently dropped, because the assignment on
  the fresh sort object reaches the inherited `__proto__` setter;
- login does not refuse a blocked user: the handlers run the login as
  written, and the intended refusal is stated beside it (see Findings);
- `blockUser` answers with the document read before the update, still
  unblocked.

## Model

| member | source | states |
|---|---|---|
| JsString.Split | src/app/middlewares/authentication.ts:28 | splitting on one character gives at least one part, no part holds the separator, and joining the parts with it gives the input back |
| JsString.SplitJoin | src/app/middlewares/authentication.ts:28 | splitting the join of separator-free parts gives the same parts back |
| JsString.Utf16Length | src/app/modules/auth/auth.validation.ts:7 | a string's JavaScript length is between its number of characters and twice that |
| Zod.Issues | src/app/middlewares/validateRequest.ts:8-11 | every issue parsing reports lies at the path parsed or below it |
| Zod.Accepts | src/app/middlewares/validateRequest.ts:8-11 | an undefined value is accepted exactly by an optional schema |
| Zod.CheckIssues | src/app/modules/auth/auth.validation.ts:11-14 | every check of a string runs: no issue exactly when all checks pass, every issue sits at the field's path, and each failing check's own message is reported |
| Zod.NoIssuesIffAccepts | src/app/middlewares/validateRequest.ts:8-11 | validation reports no issue exactly when the schema accepts the value (both directions, for every schema) |
| Zod.AcceptsObject | src/app/middlewares/validateRequest.ts:8-11 | an object schema accepts an object exactly when each of its keys is accepted, key by key; extra keys are ignored |
| Zod.ShapeIssuesInclude | src/app/middlewares/validateRequest.ts:8-11 | an issue found under one key of an object schema appears in the object's issue list |
| Zod.BodyWrapperAccepts | src/app/middlewares/validateRequest.ts:8-11 | a route schema `{ body: inner }` accepts the validated `{body, cookies}` object exactly when `inner` accepts the body |
| AuthValidation.EmailFieldAccepts | src/app/modules/auth/auth.validation.ts:8-10 | the email field accepts exactly a string that the email predicate accepts |
| AuthValidation.PasswordFieldAccepts | src/app/modules/auth/auth.validation.ts:11-14 | the password field accepts exactly a string of 6 to 20 UTF-16 units |
| AuthValidation.NameFieldAccepts | src/app/modules/auth/auth.validation.ts:5-7 | the name field accepts exactly a string of at least 5 UTF-16 units |
| AuthValidation.RegisterBodyAccepts | src/app/modules/auth/auth.validation.ts:4-15 | the register body object is accepted exactly when its name, email and password are all accepted |
| AuthValidation.RegisterSchemaAccepts | src/app/modules/auth/auth.validation.ts:3-16 | the register schema passes exactly when `body` is an object with a name of at least 5 units, a valid email and a 6 to 20 unit password |
| AuthValidation.LoginSchemaAccepts | src/app/modules/auth/auth.validation.ts:17-27 | the login schema passes exactly when `body` has a valid email and a 6 to 20 unit password; no name is needed |
| AuthValidation.LoginBodyAccepts | src/app/modules/auth/auth.validation.ts:18-26 | the login body object is accepted exactly when its email and password are accepted |
| AuthValidation.RegisterRequestPassesLogin | src/app/modules/auth/auth.validation.ts:3-27 | every request that passes the register schema passes the login schema |
| AuthValidation.ShortNameReported | src/app/modules/auth/auth.validation.ts:5-7 | a name shorter than 5 is reported at `body.name` with "Name must be at least 5 characters" |
| AuthValidation.MissingBodyReported | src/app/modules/auth/auth.validation.ts:3-27 | with no body, both schemas report one issue at `body`, "Required" |
| BlogValidation.CreateBlogSchemaAccepts | src/app/modules/blogs/blogs.validation.ts:3-13 | the create schema passes exactly when `body` has a title of 3 to 100 units and a content of at least 10 |
| BlogValidation.UpdateSchemaIsCreateSchema | src/app/modules/blogs/blogs.validation.ts:15-25 | the update schema reports the same issues as the create schema, so both fields stay required on update |
| BlogValidation.OutOfBoundsRejected | src/app/modules/blogs/blogs.validation.ts:5-11 | a body whose title is over 100 units or whose content is under 10 is rejected |
| BlogValidation.TitleFieldAccepts | src/app/modules/blogs/blogs.validation.ts:5-8 | the title accepts exactly a string of 3 to 100 UTF-16 units |
| BlogValidation.ContentFieldAccepts | src/app/modules/blogs/blogs.validation.ts:9-11 | the content accepts exactly a string of at least 10 UTF-16 units |
| BlogValidation.BlogBodyAccepts | src/app/modules/blogs/blogs.validation.ts:4-12 | the blog body object is accepted exactly when both its title and its content are accepted |
| UserValidation.UserSchemaAccepts | src/app/modules/user/user.validation.ts:3-15 | the user schema passes exactly for an object with string name, email and password (no bounds), a role that is absent or one of admin/user, and an `isBlocked` that is absent or a boolean |
| UserValidation.RequestInputLacksName | src/app/modules/user/user.validation.ts:3-6 | the schema is flat: applied to the `{body, cookies}` object it always reports "Name is required" at `name` |
| UserValidation.UserFieldsAccepted | src/app/modules/user/user.validation.ts:3-15 | the five keys of the user schema are accepted exactly when the object is a valid user object |
| UserValidation.OptionalFieldsAccepted | src/app/modules/user/user.validation.ts:13-14 | `role` and `isBlocked` are accepted exactly when the role is absent or admin/user and the flag is absent or a boolean |
| UserModel.RoleFromName | src/app/modules/user/user.model.ts:10 | only "admin" and "user" name a role, and the role's name is the text it came from |
| UserModel.RoleNameRoundTrip | src/app/modules/user/user.model.ts:10 | every role's name reads back as that role |
| UserModel.NewUser | src/app/modules/user/user.model.ts:5-16 | a user document is built exactly when name, email and password are non-empty; each missing path is reported; role defaults to user, `isBlocked` to false, and both timestamps are the creation time |
| UserModel.UserWithEmail | src/app/modules/user/user.model.ts:8 | under the unique email index, the lookup finds a user exactly when one has that email, and that user has it |
| UserModel.UserJson | src/app/modules/user/user.model.ts:5-16 | the document as sent has exactly the id, the five fields and the two timestamps, each with the stored value, password hash included |
| BlogModel.NewBlog | src/app/modules/blogs/blogs.model.ts:5-15 | a blog document is built exactly when title and content are non-empty and the author is given; `isPublished` defaults to true; both timestamps are the creation time |
| Database.WithBlocked | src/app/modules/admin/admin.controller.ts:51-55 | blocking sets the target's `isBlocked` and its update time and changes no other field and no other user |
| Database.WithBlockedKeepsEmailsUnique | src/app/modules/admin/admin.controller.ts:51-55 | blocking keeps the unique email index |
| Database.CreateUserOutcome | src/app/modules/user/user.model.ts:5-16 | creation fails with the missing paths first, then with a duplicate-key error naming the email; it succeeds exactly when neither applies |
| Database.Store.CreateUser | src/app/modules/auth/auth.service.ts:25-29 | a created user gets a fresh id and nothing else in the store changes; on error nothing changes; the store invariant (ids below the counter, unique emails) holds |
| Database.Store.CreateBlog | src/app/modules/blogs/blogs.service.ts:17 | a created blog gets a fresh id and nothing else changes; a missing path leaves the store unchanged |
| Database.Store.SetBlocked | src/app/modules/admin/admin.controller.ts:51-55 | the update with `{new: true}` returns the blocked document, or nothing when the id is unknown; only that user changes |
| Database.Store.DeleteBlogById | src/app/modules/admin/admin.controller.ts:110 | exactly that blog is removed and returned, if it was there; users are untouched |
| DuplicateErrors.HandleDuplicateError | src/app/errors/handleDuplicateError.ts:3-22 | status 400 and "Duplicate value error."; one source whose path is the first key, or "unknown" when that is missing or empty; its message contains both the value and the field |
| DuplicateErrors.NoKeyValue | src/app/errors/handleDuplicateError.ts:5-12 | without `keyValue` the path is "unknown", the value "unknown value" and the field prints as "undefined" |
| DuplicateErrors.DuplicateEmail | src/app/errors/handleDuplicateError.ts:3-22 | the store's taken-email error is reported at `email` with the email in the message |
| DuplicateErrors.DuplicateMessageNames | src/app/errors/handleDuplicateError.ts:11 | the message template names both the colliding value and the field |
| CastErrors.HandleCastError | src/app/errors/handleCastError.ts:5-22 | status 400 and "Invalid input data."; one source at the cast path whose message contains the path and the expected kind |
| CastErrors.CastMessageNames | src/app/errors/handleCastError.ts:11 | the message template names both the cast path and the expected kind |
| ZodErrors.LastPathItem | src/app/errors/handleZodError.ts:9 | a source path is the issue path's last element, and undefined exactly for an empty path |
| ZodErrors.IssueSources | src/app/errors/handleZodError.ts:7-12 | one source per issue, in issue order, carrying its last path element and its message unchanged |
| ZodErrors.HandleZodError | src/app/errors/handleZodError.ts:6-21 | status 400 and "Validation Error", with as many sources as issues, each matching its issue |
| ZodErrors.MissingBodyNormalised | src/app/errors/handleZodError.ts:6-21 | a register request with no body is normalised to one source at `body` saying "Required" |
| ResponseEnvelope.Envelope | src/app/utils/sendResponse.ts:10-20 | the envelope has exactly `statusCode`, `success` and `message`, copied, plus `data` exactly when data is defined (a null is kept) |
| ResponseEnvelope.ReadEnvelopeRoundTrip | src/app/utils/sendResponse.ts:10-20 | a client reading the envelope gets the handler's record back, an undefined `data` as undefined |
| ResponseEnvelope.SendResponse | src/app/utils/sendResponse.ts:10-23 | one write, with the record's status code and its envelope |
| ErrorEnvelope.SourcesJson | src/app/utils/sendError.ts:10 | the `error` field lists the sources in order, one entry each |
| ErrorEnvelope.ReadSourceRoundTrip | src/app/utils/sendError.ts:10 | one error source read back from its JSON is the source itself, path included |
| ErrorEnvelope.Envelope | src/app/utils/sendError.ts:6-14 | `success` is false, `statusCode` and `message` are copied, `error` is the sources, and `stack` appears only in development when there is one |
| ErrorEnvelope.ReadSourcesRoundTrip | src/app/utils/sendError.ts:10 | the sources read back from the `error` field are the sources sent |
| ErrorEnvelope.ReadEnvelopeRoundTrip | src/app/utils/sendError.ts:6-14 | a client reads back the error response, whose stack survives only in development |
| ErrorEnvelope.SendError | src/app/utils/sendError.ts:6-14 | one write, with the error's status code and its envelope |
| ErrorEnvelope.SendErrorAndForward | src/app/modules/auth/auth.controller.ts:37-41 | the catch block sends one simplified error envelope and then forwards the original error |
| QueryBuilder.SearchConditions | src/app/utils/queryBulider.ts:9-11 | one alternative per field, in field order, each the unescaped search term with option "i" |
| QueryBuilder.BuildSearchQuery | src/app/utils/queryBulider.ts:3-14 | empty exactly when the search is empty or undefined or there are no fields; otherwise only `$or`, holding the ordered alternatives |
| QueryBuilder.BuildFilterQuery | src/app/utils/queryBulider.ts:16-22 | empty exactly when the filter or the field is empty; otherwise just `{field: filter}` |
| QueryBuilder.BuildSortOptions | src/app/utils/queryBulider.ts:24-33 | empty exactly when `sortBy` is falsy or `__proto__`; otherwise only `sortBy`, with -1 exactly when the order is "desc" and 1 otherwise |
| QueryBuilder.BuildQuery | src/app/utils/queryBulider.ts:35-52 | the query's keys are the union of the search and filter keys, within `{$or, filterField}`, and the filter wins on a shared key; the sort options are those built from `sortBy` and `sortOrder` |
| QueryBuilder.BuildQueryReadsOnlyItsParameters | src/app/utils/queryBulider.ts:40-49 | the sort depends only on `sortBy`/`sortOrder`, the query only on `search`/`filter`; other parameters are ignored |
| QueryBuilder.FilterWinsOnCollision | src/app/utils/queryBulider.ts:43-46 | filtering on the key `$or` replaces the search alternatives |
| QueryBuilder.DescendingIsCaseSensitive | src/app/utils/queryBulider.ts:30 | "desc" sorts descending; "DESC" and an undefined order sort ascending |
| QueryBuilder.ProtoSortIgnored | src/app/utils/queryBulider.ts:28-32 | a `sortBy` of `__proto__` gives empty sort options, in the builder and in the built query, whatever the order |
| Authentication.BearerToken | src/app/middlewares/authentication.ts:28 | the token is the longest space-free word after "Bearer " |
| Authentication.BearerTokenRoundTrip | src/app/middlewares/authentication.ts:20-28 | the header "Bearer " + t passes the header check and yields t, for any t without a space |
| Authentication.Authorize | src/app/middlewares/authentication.ts:17-79 | a bad header fails with 401 "You are not authorized!"; success holds exactly when every check holds (stated as a conjunction) and yields the decoded claims; a token the library rejects fails with the library's own error, and only such a token does; every failure is a token-library error, a 401 or a 404 |
| Authentication.HeaderCheckedFirst | src/app/middlewares/authentication.ts:20-25 | with a bad header the result depends neither on the token library, the id check, the store nor the required roles |
| Authentication.ClaimsCheckedBeforeStore | src/app/middlewares/authentication.ts:31-54 | a rejected token or bad claims fail whatever the store holds and whatever roles are required |
| Authentication.ClaimFailures | src/app/middlewares/authentication.ts:36-54 | falsy claims, then a bad user id, then a missing role: each gets its own 401 in that order |
| Authentication.StoreFailures | src/app/middlewares/authentication.ts:57-79 | after valid claims: an unknown user is 404, a blocked user 401, and only then an unlisted role 401 |
| Authentication.RoleListMonotone | src/app/middlewares/authentication.ts:74 | whoever passes some role list passes the empty list, and extending a non-empty list never shuts anyone out |
| Authentication.StoredRoleIgnored | src/app/middlewares/authentication.ts:74 | the role checked is the token's: changing the stored role changes no result |
| Authentication.BlockedUserRefused | src/app/middlewares/authentication.ts:65-71 | once a user is blocked, every token naming them is refused with "Your account is blocked!" |
| Authentication.Authenticate | src/app/middlewares/authentication.ts:14-95 | on success `req.user` is the claims and `next()` is called with nothing sent; a token-library error becomes `next` with 401 "Invalid token!" and nothing sent; any other error is sent as an envelope and forwarded unchanged; on failure `req.user` is untouched |
| AuthService.StoredFields | src/app/modules/auth/auth.service.ts:20-29 | registration passes on name and email, the hash of the password, and no role or blocked flag |
| AuthService.RegisterOutcome | src/app/modules/auth/auth.service.ts:19-31 | without a password the hashing library throws; otherwise the outcome is the store's creation of the stored fields |
| AuthService.RegisteredUserDefaults | src/app/modules/auth/auth.service.ts:20-29 | a registered user has role user, is not blocked, and stores `hash` applied to the given password in place of the given password |
| AuthService.RegistrationIgnoresRoleAndFlag | src/app/modules/auth/auth.service.ts:20-29 | a role or blocked flag in the payload changes nothing |
| AuthService.RegisterUser | src/app/modules/auth/auth.service.ts:19-31 | inserts exactly the registered user under a fresh id, or leaves the users unchanged on error; blogs are untouched |
| AuthService.ProjectedAsWritten | src/app/modules/auth/auth.service.ts:50 | the lookup's projection leaves `isBlocked` undefined |
| AuthService.Projected | src/app/modules/auth/auth.service.ts:50 | the corrected projection reads the stored `isBlocked` |
| AuthService.LoginDecision | src/app/modules/auth/auth.service.ts:56-77 | blocked is 403, then a password mismatch is 401; success exactly otherwise, with the token signed over `{userId, role}` |
| AuthService.LoginAsWritten | src/app/modules/auth/auth.service.ts:44-78 | as written: an unknown email is 404 "User not found"; for the user holding the email, a password mismatch is 401 "Invalid credentials", success holds exactly when the password matches, and the token is signed over that user's id and role |
| AuthService.AsWrittenDiffersOnlyForBlocked | src/app/modules/auth/auth.service.ts:50-57 | the login as written and the corrected login give different results exactly when the email belongs to a blocked user |
| AuthService.BlockedUserLogsInAsWritten | src/app/modules/auth/auth.service.ts:50-57 | as written, a blocked user with the right password is given a token |
| AuthService.NeverForbiddenAsWritten | src/app/modules/auth/auth.service.ts:50-57 | as written, login never fails with 403 "User is blocked" |
| AuthService.Login | src/app/modules/auth/auth.service.ts:44-78 | unknown email is 404, then blocked 403, then wrong password 401; success exactly for an unblocked user with a matching password, with the token over that user's id and role |
| AuthService.LoginUser | src/app/modules/auth/auth.service.ts:44-78 | login reads the store and writes nothing; its result is the login as written, which never reads `isBlocked` |
| AuthService.RegisterThenLogin | src/app/modules/auth/auth.service.ts:19-78 | a newly registered user keeps emails unique and logs in with the same password, given that the comparison accepts a password against its own hash, receiving a token for role user, both from the login as written and from the corrected one |
| AuthService.IssuedTokenAdmitted | src/app/modules/auth/auth.service.ts:66-77 | the token that login signs for a user is admitted by the middleware for that user's role, when the token library decodes what it signed and the user is not blocked |
| AuthController.RegisteredData | src/app/modules/auth/auth.controller.ts:31-35 | the register data has exactly `_id`, `name` and `email` |
| AuthController.RegisterEnvelope | src/app/modules/auth/auth.controller.ts:27-36 | a client reads 201, "User registered successfully" and data without a password |
| AuthController.LoginEnvelope | src/app/modules/auth/auth.controller.ts:57-64 | a client reads 200, "Login successful" and data holding only the token |
| AuthController.RegisterUserHandler | src/app/modules/auth/auth.controller.ts:19-42 | success stores the user and sends the 201 envelope without calling `next`; an error sends one error envelope, forwards the error and leaves the users unchanged |
| AuthController.LoginUserHandler | src/app/modules/auth/auth.controller.ts:53-70 | on the login as written, success sends the 200 token envelope; an error sends one error envelope and forwards it; the store is not modified |
| AdminController.BlockUserGuard | src/app/modules/admin/admin.controller.ts:32-49 | no id is 400, then an invalid id 400, then an unknown user 404, then an already blocked user 400; otherwise the user's id |
| AdminController.BlockedResponseShowsUnblocked | src/app/modules/admin/admin.controller.ts:64-69 | the success data is the document read before the update, so it shows `isBlocked` false |
| AdminController.SecondBlockFails | src/app/modules/admin/admin.controller.ts:47-49 | blocking the same user again fails with "User is already blocked" |
| AdminController.BlockUser | src/app/modules/admin/admin.controller.ts:26-75 | a passing guard blocks exactly that user and sends 200 with the pre-update document; a failing guard changes nothing, sends the error and forwards it |
| AdminController.DeleteBlogGuard | src/app/modules/admin/admin.controller.ts:96-108 | no id is 400, then an invalid id 400, then an unknown blog 404; otherwise the blog's id |
| AdminController.DeletedResponseHasNoData | src/app/modules/admin/admin.controller.ts:119-123 | the delete envelope has no `data` key and reads back unchanged |
| AdminController.SecondDeleteFails | src/app/modules/admin/admin.controller.ts:105-108 | deleting the same blog again fails with "Blog not found" |
| AdminController.DeleteBlog | src/app/modules/admin/admin.controller.ts:90-129 | a passing guard removes exactly that blog and sends a 200 without data; a failing guard changes nothing, sends the error and forwards it |

## Left out

- Process start-up, the database connection, CORS, request logging, routing and the global error handler are plumbing and are not modelled.
- The token library, bcrypt, the object-id syntax check and the email syntax check are parameters. No claim is made about signatures, expiry, hash strength or which strings are valid ids or emails.
- Object ids are natural numbers handed out in order, and their JSON text is the decimal number, not 24 hexadecimal digits.
- Timestamps are plain numbers read from a `now` parameter, and their JSON is a number, not an ISO date string. The `__v` version key is not modelled.
- `configuration.ts` defines no token secret, so `configuration.jwt.secret` would throw a TypeError before any token is checked or signed. The model assumes the secret is configured and folds it into `verify`/`sign`.
- `simplifyError` and `AppError` are not part of this model. Simplification is a parameter, and the status numbers are the standard HTTP ones.
- Express's "headers already sent" behaviour after `sendError` plus `next(error)` is not modelled. A handler's visible effect is one error envelope and the forwarded error.
- Database failures and concurrency are not modelled. So the 500 branches ("Failed to block user", "Failed to delete blog") cannot be reached, because the record was just read. The model has no such branch.
- `populate('role', 'name')` after blocking is treated as a no-op, since `role` is a plain string path. The populate on blog creation is left out.
- MongoDB regex matching and sort execution are not modelled. The query builder's output descriptors are.
- Query parameters are strings or undefined. Arrays and objects from repeated or nested query keys are not modelled.
- Token claims other than `userId` and `role` pass through uninterpreted. `userId` and `role` are strings or undefined; other JSON types are not modelled.
- JSON numbers are integers, and the key order of JSON objects is not modelled (objects are maps).
- `Zod.CheckIssues`: the schema library's email regex, its abort-early cases and issue codes are not modelled; only paths and messages are.
- `AuthService.LoginUser`: the login payload's email and password are strings, as the login schema guarantees before the handler runs. `findOne` with an undefined email is not modelled.
- RegisteredUserDefaults: hashing is a parameter, so the model proves that the stored password is `hash` of the given one, not that it differs from the plaintext.
- `AuthService.RegisterOutcome`: a payload field of a non-string type, which Mongoose would cast, is not modelled; fields are strings or undefined.
- `deleteBlog` is not mounted on any route in `admin.route.ts`. It is modelled as a handler anyway.
- The blog service and blog controller are pass-through and are not modelled beyond `Blog.create` in `Database.Store.CreateBlog`.

## Findings

| source | as written | input that shows it | evidently intended | confidence | as-written member | corrected member |
|---|---|---|---|---|---|---|
| src/app/modules/auth/auth.service.ts:50-57 | the lookup projects only `password` and `role`, so `user.isBlocked` is undefined and the 403 "User is blocked" branch is never taken | a stored user with `isBlocked: true` logging in with the right password receives a token | a blocked user is refused with 403 "User is blocked" | not executed | AuthService.BlockedUserLogsInAsWritten | AuthService.Login |
