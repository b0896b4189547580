# A model of the todo application's authentication core

This project models the authentication and authorisation core of a
full-stack todo application. The server side is an Express API backed by
MongoDB. The client side is a React single-page application.

What is modelled:

- **Token model.** Short-lived access tokens and rotating refresh tokens,
  both carried in httpOnly cookies. Each refresh token has a `jti` (token
  id), and a user's `refreshTokenBlacklist` holds the ids of revoked ones.
- **Server.** The auth controller: refresh, logout, login, the session
  probe and registration. Also the three middlewares, the user and todo
  controllers, the user model's cascade hooks, the cron sweep of expired
  blacklist entries, and the small utilities (slug, `stripObj`, error
  messages, `decodeJWT`).
- **Client.** The fetch wrapper with its single silent refresh, the
  `AUTH_FAILURE` event registry, the `AuthProvider` state machine, and the
  five forms that talk to the API (login, register, update user, create
  todo, update todo).

How the model is built:

- Each handler that changes the database is a method that takes the
  `Store.Db` object and updates its tables in place. Its `ensures` ties the response and the new tables to a
  specification function of the old tables. The lemmas beside it state
  what that function promises: the rejection chains, rotation, replay
  protection, the cascade that leaves no orphan todos, the one-way soft
  delete.
- Client state is kept the same way. Each component's state cells are the
  fields of a class, and its handlers are methods. Where a pure transition
  exists (`AuthContext`), the method is proved equal to it.
- Cryptography, time, randomness and the network are parameters:
  - the JWT verification result, `bcrypt.compare` and `bcrypt.hash`;
  - `uuid` and `Date.now()`;
  - the reply to each `fetch`.

JavaScript values are modelled by `Json.Value`, with JavaScript's
truthiness, `typeof` and the shallow copy `{...v}`.

## Model

| member | source | states |
|---|---|---|
| Jwt.Sign | server/src/controllers/authController/logIn/index.ts:120-129 | the signed claims are the payload plus `iat` = now and `exp` = now + lifetime, under the given secret |
| Types.RoleName | server/src/models/userModel.ts:35-38 | a role is spelled `USER` or `ADMIN` |
| Json.Spread | server/src/controllers/userController/getCurrentUser.ts:17-19 | `{...v}` copies an object's own fields, and an array's elements under their decimal indices |
| Text.Lower | server/src/controllers/userController/createUser/index.ts:139 | keeps the length, lower-cases each character on its own (ASCII range), and is idempotent |
| Text.LowerIdempotent | server/src/controllers/userController/createUser/index.ts:139 | lower-casing twice equals lower-casing once |
| TokenUtils.AsRefreshTokenData | server/src/utils/token.ts:16-37 | once the refresh guard holds, the narrowed fields are exactly the object's `jti`, `id`, `role`, `exp`, `iat` |
| TokenUtils.GuardsRejectNonObjects | server/src/utils/token.ts:19-21 | null, undefined and every non-object fail both guards |
| TokenUtils.RefreshClaimsRoundTrip | server/src/utils/token.ts:16-60 | a claims object built from refresh data passes both guards, whatever the role string, and reads back as the same data |
| TokenUtils.RefreshGuardImpliesAccessGuard | server/src/utils/token.ts:23-57 | every value the refresh guard accepts is accepted by the access guard |
| TokenUtils.NoJtiIsAccessOnly | server/src/utils/token.ts:23-26 | a payload without `jti` passes the access guard and fails the refresh guard |
| TokenUtils.AccessTokenCookieOptions | server/src/utils/token.ts:95-121 | httpOnly, one-minute maxAge equal to the access lifetime, no path; secure and `none` outside development, `lax` in development |
| TokenUtils.RefreshTokenCookieOptions | server/src/utils/token.ts:128-138 | httpOnly, path `/api/auth`, one-day maxAge that differs from the three-minute refresh lifetime, same secure/sameSite policy |
| TokenUtils.CookiePolicyShared | server/src/utils/token.ts:112-136 | both cookies share secure and sameSite and differ in path |
| TokenUtils.IssueRefreshToken | server/src/controllers/authController/logIn/index.ts:118-129 | the issued refresh token is signed with the refresh secret and decodes to `{jti, id, role}` expiring three minutes after issue |
| TokenUtils.IssueAccessToken | server/src/controllers/authController/logIn/index.ts:153-160 | the access token carries `id` and `role` but no `jti`, so it passes the access guard and fails the refresh guard |
| TokenUtils.TokenCookies | server/src/controllers/authController/logIn/index.ts:168-172 | the access cookie is set first and the refresh cookie second, each with its own options |
| Blacklist.Sweep | server/src/controllers/authController/refreshAccessToken.ts:239-241 | keeps only entries expiring strictly after now and never lengthens the list |
| Blacklist.SweepPartitions | server/src/controllers/authController/refreshAccessToken.ts:239-241 | an entry is kept exactly when it is in the list and expires after now; kept and expired entries together are a permutation of the list |
| Blacklist.Contains | server/src/controllers/authController/refreshAccessToken.ts:99-101 | true exactly when some entry has the given `jti` |
| Blacklist.Revoke | server/src/controllers/authController/refreshAccessToken.ts:247-254 | appends `{jti, expiresAt: exp*1000}` after the existing entries, which are kept as they were |
| Blacklist.SweepThenRevoke | server/src/controllers/authController/logOut.ts:97-108 | the inline sweep, then a push of `{jti, exp*1000}` only when `jti` is non-empty and `exp` is non-zero |
| Blacklist.RevokedIsContained | server/src/controllers/authController/refreshAccessToken.ts:239-254 | after a sweep and a guarded push of a token with an id and an expiry, the list contains that `jti` |
| Blacklist.PullIsSweep | server/src/cron/cleanUpExpiredTokens.ts:48-60 | the cron `$pull` of entries with `expiresAt <= now` keeps the same entries as the inline filter |
| Blacklist.SweepIdempotent | server/src/controllers/authController/refreshAccessToken.ts:239-241 | sweeping twice at the same time equals sweeping once |
| Blacklist.SweepLater | server/src/controllers/authController/refreshAccessToken.ts:239-241 | a later sweep of an earlier sweep equals the later sweep alone |
| Blacklist.RevokeTwiceDuplicates | server/src/controllers/authController/logOut.ts:97-108 | revoking the same live token twice leaves two identical entries at the end of the list |
| Store.NewUser | server/src/models/userModel.ts:35-94 | a new record has role USER, is active and has an empty blacklist |
| Store.BlacklistValue | server/src/models/userModel.ts:83-92 | the blacklist as a document value: an array of `{jti, expiresAt}` with the same length |
| Store.Selected | server/src/models/userModel.ts:28-92 | a projection hides exactly the listed paths |
| Store.DefaultProjectionHidesSecrets | server/src/models/userModel.ts:28-92 | the default projection has no `password`, `role` or `refreshTokenBlacklist`; `+role` adds back the role and nothing else |
| Store.FindOne | server/src/controllers/authController/logIn/index.ts:59 | a record is returned exactly when some record matches, and the returned record matches |
| Store.IndexOfId | server/src/controllers/authController/refreshAccessToken.ts:82-84 | `findById` finds the first record with that id; a non-string id finds nothing |
| Store.TodosWithoutOwners | server/src/models/userModel.ts:138-151 | `Todo.deleteMany({user: {$in: ids}})` keeps exactly the todos whose owner is not in the set |
| Store.UsersWithout | server/src/models/userModel.ts:138-151 | a query-level delete keeps exactly the records the filter does not match |
| Store.Db.DeleteUserDocument | server/src/models/userModel.ts:108-120 | the document `deleteOne` removes that one record after its hook has removed all of its todos |
| Store.Db.DeleteOneWhere | server/src/models/userModel.ts:138-151 | the query `deleteOne` removes the first match, but its hook removes the todos of every match |
| Store.Db.DeleteManyWhere | server/src/models/userModel.ts:138-151 | the query `deleteMany` removes every match and every todo those matches own |
| Store.Db.FindOneAndDeleteWhere | server/src/models/userModel.ts:162-172 | `findOneAndDelete` removes the first match and its todos, and returns it; with no match nothing changes |
| Store.CascadeLeavesNoOrphans | server/src/models/userModel.ts:138-151 | after a `deleteMany`, no remaining todo belongs to a removed user |
| Store.DeleteOneTakesOtherMatchesTodos | server/src/models/userModel.ts:138-151 | a query `deleteOne` with several matches also deletes the todos of matches it does not remove |
| Cron.CleanUpExpiredTokens | server/src/cron/cleanUpExpiredTokens.ts:46-67 | the user table after the job equals `PullAll` of the old one; todos are untouched |
| Cron.CronSweepsEveryUser | server/src/cron/cleanUpExpiredTokens.ts:48-60 | each user keeps its position and fields, and its blacklist is swept |
| Cron.CronRemovesExactlyExpired | server/src/cron/cleanUpExpiredTokens.ts:52-56 | an entry survives exactly when it expires after now |
| Cron.CronIdempotent | server/src/cron/cleanUpExpiredTokens.ts:48-60 | running the job twice at the same time equals running it once |
| Cron.CronAndRevokeCommute | server/src/cron/cleanUpExpiredTokens.ts:48-60 | for a live token, revoking and then running the job gives the same list as running the job and then revoking |
| AuthController.Refresh | server/src/controllers/authController/refreshAccessToken.ts:20-350 | a refusal is 401 with no cookies and no write; a success is 200 OK with no data; the table keeps its length |
| AuthController.RefreshAccessToken | server/src/controllers/authController/refreshAccessToken.ts:20-350 | the handler's response and user table equal `Refresh` of the old table; todos are untouched |
| AuthController.RefreshRejections | server/src/controllers/authController/refreshAccessToken.ts:33-108 | in order: no cookie is 401 BAD_REQUEST, then a failed verification, a guard failure, an unknown user and a blacklisted `jti` are each 401 UNAUTHORIZED with their own message |
| AuthController.RefreshRotation | server/src/controllers/authController/refreshAccessToken.ts:183-256 | success holds exactly when the chain passes; then both cookies are reissued, the new refresh token has no `jti` and expires at the old expiry, and only the presenting user's blacklist changes (swept, then the old token pushed) |
| AuthController.RefreshReplayRejected | server/src/controllers/authController/refreshAccessToken.ts:99-108 | presenting the same refresh token again after a rotation is refused as blacklisted |
| AuthController.Rotation | server/src/controllers/authController/refreshAccessToken.ts:99-256 | for a stored user: a `jti` already in the blacklist is 401 UNAUTHORIZED with no write; otherwise success, and that user's blacklist alone is swept and then given the presented token |
| AuthController.Rotate | server/src/controllers/authController/refreshAccessToken.ts:99-256 | the blacklist check, sweep, push and save leave the response and user table equal to `Rotation` of the old table; todos are untouched |
| AuthController.RotatedTokenFailsGuard | server/src/controllers/authController/refreshAccessToken.ts:186-194 | the rotated refresh token has no `jti`, so the next refresh is 401 and the session probe is 500 |
| AuthController.LogOut | server/src/controllers/authController/logOut.ts:56-146 | logout always answers 200 OK with no data, and the table keeps its length |
| AuthController.ClearedCookies | server/src/controllers/authController/logOut.ts:122-134 | both cookies are cleared with `maxAge: 0` and the path each was set with |
| AuthController.LogOutHandler | server/src/controllers/authController/logOut.ts:56-146 | the handler's response and user table equal `LogOut` of the old table; todos are untouched |
| AuthController.RevokePresented | server/src/controllers/authController/logOut.ts:79-110 | the user table keeps its length |
| AuthController.RevokePresentedTouchesOnlyNamed | server/src/controllers/authController/logOut.ts:79-110 | only a blacklist can change, only a record with the token's id is touched, and when such a user is stored its blacklist is swept and then given the token |
| AuthController.RevokeInPlace | server/src/controllers/authController/logOut.ts:82-110 | the lookup, sweep, push and save leave the user table equal to `RevokePresented` of the old one; todos are untouched |
| AuthController.LogOutRevokesOnlyVerified | server/src/controllers/authController/logOut.ts:70-115 | the table changes only when the cookie verifies, passes the guard and names a stored user; then that user's blacklist is swept and the token pushed, without first checking whether it is already there |
| AuthController.LogOutTwiceDuplicates | server/src/controllers/authController/logOut.ts:97-110 | two logouts with the same live cookie leave two identical entries for it |
| AuthController.RevokePresentedTwice | server/src/controllers/authController/logOut.ts:97-110 | revoking a live token twice, the second time no earlier, leaves two identical entries at the end of that user's blacklist |
| AuthController.LogIn | server/src/controllers/authController/logIn/index.ts:26-194 | a success is 200 OK with the session and two cookies; every failure has no cookies and no data |
| AuthController.LogInRejections | server/src/controllers/authController/logIn/index.ts:36-101 | in order: schema failure 400, unknown email 400, inactive user 409, wrong password 400, all coded INVALID_CREDENTIALS |
| AuthController.LogInSucceeds | server/src/controllers/authController/logIn/index.ts:118-190 | valid credentials for an active user give 200 with the user's id and role and the refresh token's `exp` and `iat`, and set both token cookies |
| AuthController.LogInGuardFailure | server/src/controllers/authController/logIn/index.ts:131-147 | a `jwt.decode` result that fails the refresh guard makes login answer 500 with no cookies |
| AuthController.GetSession | server/src/controllers/authController/getSession.ts:13-90 | success exactly when the cookie is a non-empty string, verifies and passes the guard, and then the session is the token's claims; a missing or unverifiable cookie is 401, a guard failure 500; the result is a response alone, as nothing is written |
| AuthController.SessionIgnoresBlacklist | server/src/controllers/authController/getSession.ts:37-89 | a refresh token already rotated and blacklisted still yields its session |
| AuthController.Register | server/src/controllers/userController/createUser/index.ts:44-241 | a success is 201 CREATED and adds exactly one record; a failure writes nothing and sets no cookies |
| AuthController.Saved | server/src/controllers/userController/createUser/index.ts:209-240 | the save succeeds exactly when no stored user has the new id or email; then the record is appended and the answer is 201 CREATED, otherwise nothing is written, no cookie is set and the answer is 500 |
| AuthController.Save | server/src/controllers/userController/createUser/index.ts:209-240 | the save and the response leave the user table equal to `Saved` of the old one; todos are untouched |
| AuthController.RegisterAppends | server/src/controllers/userController/createUser/index.ts:76-209 | a successful registration passed the schema and appended exactly the record built from the validated names, the lower-cased email and the hashed password |
| AuthController.CreateUser | server/src/controllers/userController/createUser/index.ts:44-241 | the handler's response and user table equal `Register` of the old table; todos are untouched |
| AuthController.RegisterStoresNewUser | server/src/controllers/userController/createUser/index.ts:128-237 | the stored record has the validated names, the lower-cased email, the hashed password, role USER and an empty blacklist; the response carries the issued token's session |
| AuthController.RegisterRejectsCaseVariant | server/src/controllers/userController/createUser/index.ts:76-116 | the existence lookup ignores case, so a schema that refuses an existing user turns away a case variant of a stored email with 400 |
| AuthController.MixedCaseEmailCannotLogIn | server/src/controllers/authController/logIn/index.ts:59-68 | login matches the email exactly, so a mixed-case address typed the same way as at registration finds no user and is refused |
| AuthController.RegisterKeepsEmailsLowerCase | server/src/controllers/userController/createUser/index.ts:139 | if every stored email is lower-case, it still is after a registration |
| Middleware.ClaimedUser | server/src/middleware/authMiddleware.ts:94-99 | the record whose id is the decoded `id`, when the decoded value is an object with an `id`; otherwise none |
| Middleware.AuthGate | server/src/middleware/authMiddleware.ts:21-122 | a refusal is 401 UNAUTHORIZED with no cookies; it passes exactly when the cookie is a string, verifies and names a stored user, and `req.user` is then that record with its role added back |
| Middleware.AuthGateRejections | server/src/middleware/authMiddleware.ts:50-118 | in order: a missing or non-string cookie, a failed verification, decoded data without an `id` and an unknown user are each 401 UNAUTHORIZED with their own message |
| Middleware.UserGate | server/src/middleware/userMiddleware.ts:13-37 | `req.user` is set exactly when the cookie is a string, verifies and names a stored user; the attached record is the default projection, so it has no password |
| Middleware.Request.Authenticate | server/src/middleware/authMiddleware.ts:21-122 | either exactly one response and no `next`, or `req.user` assigned and `next` called once, as `AuthGate` decides |
| Middleware.Request.AttachUser | server/src/middleware/userMiddleware.ts:13-37 | never responds; calls `next` exactly once; assigns `req.user` only as `UserGate` decides |
| Middleware.RoleGate | server/src/middleware/roleMiddleware.ts:19-46 | a missing or different role is 403 with no `code`; the allowed role passes with `req.user` untouched; never 401 |
| Middleware.AuthThenRole | server/src/routes/admin/testRoutes.ts:13 | once `authMiddleware` lets a request through, `roleMiddleware(role)` lets it through exactly when the stored user has that role |
| Middleware.UserGateThenRoleAlwaysForbidden | server/src/middleware/userMiddleware.ts:26 | `userMiddleware` attaches no role, so a role gate after it refuses every request with 403 |
| Middleware.GatesAgreeOnUser | server/src/middleware/userMiddleware.ts:24-29 | when both gates find a user, it is the same record; they differ only in whether the role is attached |
| UserController.ArchivedEmail | server/src/controllers/userController/softDeleteUser.ts:57 | the archived email ends with the old email and is strictly longer |
| UserController.SoftDelete | server/src/controllers/userController/softDeleteUser.ts:28-70 | a refusal writes nothing and returns no data; a success is 200 UPDATED; the table keeps its length |
| UserController.SoftDeleteUser | server/src/controllers/userController/softDeleteUser.ts:28-70 | the handler's response and user table equal `SoftDelete` of the old table |
| UserController.SoftDeleteIsOneWay | server/src/controllers/userController/softDeleteUser.ts:41-59 | a successful soft delete sets `isActive` false and archives the email, touching nothing else, and every later call answers 409 USER_ARCHIVED without a change |
| UserController.SoftDeleteBlocksLogIn | server/src/controllers/userController/softDeleteUser.ts:56-59 | after a soft delete, login with the original email fails at the exact-email lookup |
| UserController.Updated | server/src/controllers/userController/updateUser/index.ts:139-162 | only truthy validated fields replace stored ones, the password as its hash; id, role, active flag and blacklist never change |
| UserController.AssignValidated | server/src/controllers/userController/updateUser/index.ts:139-162 | the six conditional assignments produce `Updated` of the stored record |
| UserController.UpdateUserSpec | server/src/controllers/userController/updateUser/index.ts:63-200 | a refusal writes nothing and returns no data; a success is 200 UPDATED; the table keeps its length |
| UserController.UpdateUser | server/src/controllers/userController/updateUser/index.ts:63-200 | the handler's response and user table equal `UpdateUserSpec` of the old table |
| UserController.UpdateUserRejections | server/src/controllers/userController/updateUser/index.ts:63-130 | a falsy or malformed id is 400 BAD_REQUEST, an unknown user 404, rejected form data 400 FORM_ERRORS with the schema's errors; none of them writes |
| UserController.UpdateUserPartial | server/src/controllers/userController/updateUser/index.ts:139-200 | a success stores `Updated` of the record, keeps the email as typed, and returns it without password, role or blacklist |
| UserController.DeleteUser | server/src/controllers/userController/deleteUser.ts:27-57 | a missing user is 404 and nothing is deleted; otherwise the record and all of its todos are removed and the answer is 200 DELETED |
| UserController.DeleteIfTruthy | server/src/controllers/userController/getCurrentUser.ts:18-19 | the key is removed only when its value is truthy; the other keys are kept |
| UserController.GetCurrentUser | server/src/controllers/userController/getCurrentUser.ts:17-31 | 200 OK; `data` is null without `req.user`, otherwise a copy of it without a truthy password and with every other field kept |
| UserController.GetAdmin | server/src/controllers/admin/testController/getAdmin.ts:18-39 | as `GetCurrentUser`, but a truthy `refreshTokenBlacklist` is removed too |
| UserController.CurrentUserKeepsFalsyPassword | server/src/controllers/userController/getCurrentUser.ts:18-19 | an empty-string password is returned, because the deletion tests truthiness |
| TodoController.TodoIndex | server/src/controllers/todoController/getTodo.ts:48-59 | `Todo.findById` with a string id finds the first todo with that id, or nothing when no todo has it |
| TodoController.PopulatedOwner | server/src/controllers/todoController/getTodo.ts:55-59 | the populated owner is the stored record without password, role or blacklist, or null when the owner is gone |
| TodoController.IdCheck | server/src/controllers/todoController/getTodo.ts:22-42 | a missing id is 400, a malformed ObjectId 400, anything else passes |
| TodoController.GetTodo | server/src/controllers/todoController/getTodo.ts:22-112 | the status is 200, 400, 403, 404 or 500; a success returns the requested todo, which is stored and owned by the requester |
| TodoController.GetTodoChecks | server/src/controllers/todoController/getTodo.ts:22-112 | a missing id is 400, a malformed one 400, an unknown string id 404, someone else's todo 403; never 401 |
| TodoController.GetTodoOwnerView | server/src/controllers/todoController/getTodo.ts:67-112 | the owner record in a successful answer is an object without password, role or blacklist |
| TodoController.OwnedBy | server/src/controllers/todoController/getTodos.ts:20 | exactly the requester's todos |
| TodoController.GetTodos | server/src/controllers/todoController/getTodos.ts:20-51 | 200 OK listing exactly the requester's todos; an empty list is still a success |
| TodoController.NewTodo | server/src/controllers/todoController/createTodo/index.ts:81-85 | the new todo belongs to the requester, its body defaults to `''`, and it starts not completed |
| TodoController.CreateTodoSpec | server/src/controllers/todoController/createTodo/index.ts:43-100 | invalid form data is 400 FORM_ERRORS with nothing created; otherwise 201 CREATED and exactly one todo appended |
| TodoController.CreateTodo | server/src/controllers/todoController/createTodo/index.ts:43-100 | the handler's response and todo table equal `CreateTodoSpec` of the old table; users are untouched |
| TodoController.CreatedTodoIsListed | server/src/controllers/todoController/createTodo/index.ts:81-100 | a created todo appears in its creator's list and in nobody else's |
| TodoController.Revised | server/src/controllers/todoController/updateTodo/index.ts:141-151 | title and body change only to string values, completed only to a boolean; id and owner never change |
| TodoController.UpdateTodoSpec | server/src/controllers/todoController/updateTodo/index.ts:29-160 | a refusal writes nothing; a success is 200 UPDATED; the table keeps its length |
| TodoController.UpdateTodo | server/src/controllers/todoController/updateTodo/index.ts:29-160 | the handler's response and todo table equal `UpdateTodoSpec` of the old table |
| TodoController.Revise | server/src/controllers/todoController/updateTodo/index.ts:141-151 | the three conditional assignments produce `Revised` of the stored todo: each field the form supplies is replaced, the others are kept |
| TodoController.UpdateTodoOwnerOnly | server/src/controllers/todoController/updateTodo/index.ts:97-160 | ownership is checked before validation, so a non-owner gets 403 whatever the form says and nothing changes; an owner's valid update rewrites only that todo, by `Revised` |
| TodoController.DeleteTodoSpec | server/src/controllers/todoController/deleteTodo.ts:26-115 | a refusal writes nothing; a success is 200 DELETED and removes exactly one todo |
| TodoController.DeleteTodo | server/src/controllers/todoController/deleteTodo.ts:26-115 | the handler's response and todo table equal `DeleteTodoSpec` of the old table |
| TodoController.DeleteTodoThenNotFound | server/src/controllers/todoController/deleteTodo.ts:64-115 | a delete succeeds exactly when the id is valid, the todo exists and the requester owns it; afterwards any lookup of that id is 404 |
| TodoController.NumericIdIsServerError | server/src/controllers/todoController/deleteTodo.ts:39-117 | a non-zero number passes `ObjectId.isValid` but fails the cast in `findById`, so getting, updating and deleting a todo each answer 500 through `handleServerError` and write nothing |
| ServerUtils.IndexOf | server/src/utils/index.ts:28-33 | the first position of the value, or -1 when it is absent |
| ServerUtils.IsOneOf | server/src/utils/index.ts:28-33 | true exactly when the value is an element of the list |
| ServerUtils.GetErrorMessage | server/src/utils/index.ts:40-52 | null gives the fallback; `undefined` throws; a truthy `response.data.message` wins; any other result is truthy or the fallback |
| ServerUtils.ErrorMessagePrecedence | server/src/utils/index.ts:40-52 | a response message wins over the error's own |
| ServerUtils.RemoveDisallowed | server/src/utils/index.ts:63-65 | the result has only ASCII letters, digits and spaces and is no longer than the input |
| ServerUtils.SpacesToHyphens | server/src/utils/index.ts:66 | each space becomes a hyphen and nothing else changes |
| ServerUtils.Slug | server/src/utils/index.ts:63-68 | the result has only `a`-`z`, `0`-`9` and `-` |
| ServerUtils.TransformToSlug | server/src/utils/index.ts:58-68 | falsy or non-string input comes back unchanged; a string comes back slugged |
| ServerUtils.SlugIsCharwise | server/src/utils/index.ts:63-68 | slugging maps each character alone: a space to a hyphen, a letter or digit to its lower case, anything else (an input hyphen too) to nothing |
| ServerUtils.SlugNotIdempotent | server/src/utils/index.ts:63-68 | slugging is not idempotent: `"a b"` slugs to `"a-b"`, which slugs to `"ab"` |
| ServerUtils.StripObj | server/src/utils/index.ts:99-114 | the result's keys are the input's keys that are allowed, with the same values |
| ServerUtils.StripObjDefault | server/src/utils/index.ts:99-102 | with the default empty `allowedKeys` the result is empty |
| ServerUtils.StripObjOfUndefined | server/src/utils/index.ts:171-184 | falsy or non-object input comes back as it was; otherwise a copy without the undefined-valued keys, with every defined entry kept |
| ServerUtils.StripObjOfUndefinedCopies | server/src/utils/index.ts:164-184 | an object without undefined values comes back with the same fields |
| ServerUtils.HandleServerError | server/src/utils/index.ts:191-211 | always 500 INTERNAL_SERVER_ERROR; the error's own message only in development and only for an `Error` |
| DecodeJwt.SecondSegment | server/src/utils/decodeJWT.ts:23 | the text after the first dot up to the next one, or `undefined` when there is no dot |
| DecodeJwt.SecondSegmentOfJwt | server/src/utils/decodeJWT.ts:23 | for `header.payload.signature` without dots in the parts, the second segment is the payload |
| DecodeJwt.ToStandardAlphabet | server/src/utils/decodeJWT.ts:25 | `-` becomes `+`, `_` becomes `/`, every other character is kept |
| DecodeJwt.ToUrlAlphabet | server/src/utils/decodeJWT.ts:25 | the encoder's inverse mapping, `+` to `-` and `/` to `_` |
| DecodeJwt.AlphabetRoundTrip | server/src/utils/decodeJWT.ts:25 | the two mappings undo each other on text without `-` and `_` (RFC 4648 sections 4 and 5) |
| DecodeJwt.DecodeSextetsOfSextets | server/src/utils/decodeJWT.ts:27-28 | decoding the 6-bit values of any byte string gives back those bytes |
| DecodeJwt.GroupRoundTrip | server/src/utils/decodeJWT.ts:27-28 | splitting three bytes into four 6-bit values and packing them again gives back the three bytes |
| DecodeJwt.AtobOfDigits | server/src/utils/decodeJWT.ts:27-28 | on base64 digits without padding or whitespace and a length that is not 1 modulo 4, `atob` succeeds with the packed 6-bit values |
| DecodeJwt.AtobEncode | server/src/utils/decodeJWT.ts:27-28 | `atob` of the unpadded encoding of any byte string gives back those bytes |
| DecodeJwt.PercentEncode | server/src/utils/decodeJWT.ts:29-33 | three characters per byte: `%` and two lower-case hex digits |
| DecodeJwt.PercentRoundTrip | server/src/utils/decodeJWT.ts:26-33 | reading the `%xx` escapes back gives the original bytes |
| DecodeJwt.DecodeJWT | server/src/utils/decodeJWT.ts:13-41 | a falsy token, a missing segment, bad base64, bad UTF-8 or bad JSON all give null; without `window` every token gives null |
| DecodeJwt.DecodeJwtRecoversPayload | server/src/utils/decodeJWT.ts:13-41 | for a compact JWT whose payload segment is the base64url encoding of some bytes, the result is exactly the parse of those bytes' UTF-8 text, or null |
| AuthEvents.Without | client/src/utils/authEvents.ts:29-31 | the filter keeps every other listener and drops every copy of the removed one |
| AuthEvents.WithoutUnregistered | client/src/utils/authEvents.ts:29-31 | removing a listener that is not registered changes nothing |
| AuthEvents.WithoutKeepsOthers | client/src/utils/authEvents.ts:29-31 | every other listener keeps its number of registrations |
| AuthEvents.Registry.constructor | client/src/utils/authEvents.ts:5-7 | the `AUTH_FAILURE` list starts empty |
| AuthEvents.Registry.On | client/src/utils/authEvents.ts:26-28 | appends the listener |
| AuthEvents.Registry.Off | client/src/utils/authEvents.ts:29-31 | the list becomes `Without` of the old one, and the listener is gone |
| AuthEvents.Registry.Emit | client/src/utils/authEvents.ts:32-34 | calls every registered listener once per registration, in order; the list is unchanged |
| AuthEvents.SubscribeThenCleanUp | client/src/utils/authEvents.ts:26-31 | subscribing and then cleaning up restores the list the listener was not on |
| CustomFetch.Options | client/src/utils/customFetch.ts:5-26 | the merge: every key of `init` wins, the rest comes from the defaults; no `init` means the defaults |
| CustomFetch.Fetch | client/src/utils/customFetch.ts:19-80 | one request unless the first reply is 401; then one native refresh; after an ok refresh the request is replayed once and that reply returned; after a failed refresh the 401 is returned and every `AUTH_FAILURE` listener is called |
| AuthContext.NoSetSession | client/src/contexts/AuthContext/index.tsx:264-272 | the context value has `handleAuthSuccess` but no `setSession` |
| AuthContext.SessionLoaded | client/src/contexts/AuthContext/index.tsx:173-188 | loading ends whatever the outcome; the session is set only for `success === true` |
| AuthContext.LogOut | client/src/contexts/AuthContext/index.tsx:137-158 | the session is cleared and `isLoggingOut` set; the server logout, the broadcast and the reset timer follow, in order |
| AuthContext.ResetTimerFired | client/src/contexts/AuthContext/index.tsx:137-158 | only `isLoggingOut` is reset |
| AuthContext.AuthFailure | client/src/contexts/AuthContext/index.tsx:197-227 | signed out: nothing; signed in: server logout, session cleared, broadcast, and `isLoggingOut` untouched |
| AuthContext.LogoutMessage | client/src/contexts/AuthContext/index.tsx:234-257 | a `'logout'` message clears the session and nothing else |
| AuthContext.AuthSucceeded | client/src/contexts/AuthContext/index.tsx:165-167 | the session becomes the given one; signed in exactly when it is truthy |
| AuthContext.AuthFailureOnlyWhenSignedIn | client/src/contexts/AuthContext/index.tsx:197-227 | the failure handler logs out exactly when signed in, so a second failure, or one after any sign-out, is silent |
| AuthContext.InitialLoad | client/src/contexts/AuthContext/index.tsx:173-188 | after the first load the provider is signed in exactly when the load returned `success === true` with truthy `data` |
| AuthContext.SignOutRoutesAgree | client/src/contexts/AuthContext/index.tsx:137-227 | both sign-out routes clear the session; they differ only in `isLoggingOut` and the reset timer |
| AuthContext.AuthProvider.constructor | client/src/contexts/AuthContext/index.tsx:84-95 | the state cells start at `null`, loading, not logging out |
| AuthContext.AuthProvider.SessionSettled | client/src/contexts/AuthContext/index.tsx:173-188 | the cells follow `SessionLoaded` |
| AuthContext.AuthProvider.HandleLogOut | client/src/contexts/AuthContext/index.tsx:137-158 | the cells and the effects log follow `LogOut` |
| AuthContext.AuthProvider.HandleResetTimer | client/src/contexts/AuthContext/index.tsx:150-156 | the cells follow `ResetTimerFired` |
| AuthContext.AuthProvider.HandleAuthFailure | client/src/contexts/AuthContext/index.tsx:197-227 | the cells and the effects log follow `AuthFailure` |
| AuthContext.AuthProvider.HandleLogoutMessage | client/src/contexts/AuthContext/index.tsx:234-257 | the cells follow `LogoutMessage` |
| AuthContext.AuthProvider.HandleAuthSuccess | client/src/contexts/AuthContext/index.tsx:165-167 | the cells follow `AuthSucceeded` |
| FormRules.DomainShape | client/src/pages/PageLogin/components/LoginForm.tsx:47-74 | a domain the pattern accepts is non-empty, has no `@`, and starts and ends with a letter or digit |
| FormRules.EmailSingleAt | client/src/pages/PageLogin/components/LoginForm.tsx:47-74 | the `@` that splits an accepted address is its only one |
| FormRules.EmailEnds | client/src/pages/PageLogin/components/LoginForm.tsx:47-74 | an accepted address has at least three characters and starts and ends with a non-whitespace character |
| FormRules.EmailShape | client/src/pages/PageLogin/components/LoginForm.tsx:47-74 | an accepted address has exactly one `@`, is not blank and has no whitespace at either end |
| FormRules.RequiredError | client/src/pages/PageLogin/components/LoginForm.tsx:80-95 | the message exactly when the value is blank, otherwise `''` |
| FormRules.EmailError | client/src/pages/PageLogin/components/LoginForm.tsx:47-74 | blank gives the required message, a pattern failure the invalid message, and `''` exactly when the pattern accepts |
| FormRules.NonEmpty | client/src/pages/PageLogin/components/LoginForm.tsx:101-131 | the collected messages are exactly the non-empty results |
| FormRules.NonEmptyNone | client/src/pages/PageLogin/components/LoginForm.tsx:101-131 | nothing is collected exactly when every validator returned `''` |
| FormRules.CollectErrors | client/src/pages/PageLogin/components/LoginForm.tsx:101-131 | the loop collects `NonEmpty` of the results, and the form is valid exactly when every result is `''`; the validation toast is shown exactly when something was collected |
| FormRules.Validated | client/src/pages/PageLogin/components/LoginForm.tsx:101-131 | validation keeps the value, touches the field and sets its message |
| FormRules.DisabledAfterValidate | client/src/pages/PageLogin/components/LoginForm.tsx:339 | after validation every field is touched, so the button is disabled exactly when some validator failed |
| FormRules.WithServerError | client/src/pages/PageRegister/components/RegisterForm.tsx:313-348 | a truthy string server message replaces the field's error; a falsy one leaves the field alone |
| FormRules.Toggled | client/src/pages/PageLogin/components/LoginForm.tsx:296-303 | `password` becomes `text`, anything else becomes `password` |
| FormRules.ToggleTwice | client/src/pages/PageLogin/components/LoginForm.tsx:296-303 | toggling twice restores the input type |
| LoginForm.ValidatorResults | client/src/pages/PageLogin/components/LoginForm.tsx:101-131 | the e-mail and password messages in that order, both `''` exactly when the e-mail matches and the password is not blank |
| LoginForm.PasswordError | client/src/pages/PageLogin/components/LoginForm.tsx:80-95 | `''` exactly when the password is not blank, otherwise the required message |
| LoginForm.LoginToast | client/src/pages/PageLogin/components/LoginForm.tsx:137-183 | a rejection shows the error toast, `success === false` the invalid-credentials toast |
| LoginForm.AcceptedLoginReportsError | client/src/pages/PageLogin/components/LoginForm.tsx:21 | `setSession` is not in the context, so even an accepted login throws in its success branch and shows the error toast |
| LoginForm.LoginForm.constructor | client/src/pages/PageLogin/components/LoginForm.tsx:23-36 | both fields start untouched and empty, the password hidden, not logging in |
| LoginForm.LoginForm.Validate | client/src/pages/PageLogin/components/LoginForm.tsx:101-131 | both fields are touched with their messages; valid exactly when the email matches and the password is not blank; an invalid form shows "Form validation errors found!" |
| LoginForm.LoginForm.Submit | client/src/pages/PageLogin/components/LoginForm.tsx:189-205 | sends the two values exactly when the form is valid; otherwise clears and hides the password and sends nothing; the validation toast is shown exactly when nothing is sent |
| LoginForm.LoginForm.LoginSettled | client/src/pages/PageLogin/components/LoginForm.tsx:137-183 | shows `LoginToast`; without a completed success branch the email is kept; the password is always cleared and hidden, and loading ends |
| LoginForm.LoginForm.EmailChanged | client/src/pages/PageLogin/components/LoginForm.tsx:240-252 | stores the value and re-validates only a touched field |
| LoginForm.LoginForm.EmailBlurred | client/src/pages/PageLogin/components/LoginForm.tsx:240-252 | touches and validates the email |
| LoginForm.LoginForm.PasswordChanged | client/src/pages/PageLogin/components/LoginForm.tsx:276-288 | stores the value and re-validates only a touched field |
| LoginForm.LoginForm.PasswordBlurred | client/src/pages/PageLogin/components/LoginForm.tsx:276-288 | touches and validates the password |
| LoginForm.LoginForm.TogglePasswordType | client/src/pages/PageLogin/components/LoginForm.tsx:296-303 | the input type is toggled; nothing else changes |
| LoginForm.DisabledAfterSubmit | client/src/pages/PageLogin/components/LoginForm.tsx:339 | after a submit the button is disabled exactly when the email is invalid or the password blank |
| RegisterForm.ConfirmPasswordError | client/src/pages/PageRegister/components/RegisterForm.tsx:195-216 | blank gives the required message, a mismatch the mismatch message, `''` exactly when non-blank and equal |
| RegisterForm.ValidatorResults | client/src/pages/PageRegister/components/RegisterForm.tsx:222-261 | six results, all `''` exactly when every field is valid and the passwords match |
| RegisterForm.RegisterForm.constructor | client/src/pages/PageRegister/components/RegisterForm.tsx:27-72 | every field starts untouched and empty, both passwords hidden, not submitting |
| RegisterForm.RegisterForm.Validate | client/src/pages/PageRegister/components/RegisterForm.tsx:222-261 | all six fields touched with their messages, errors collected in order, valid exactly when all are `''`, that is exactly when no field is blank, the email matches the pattern and the confirmation equals the password; an invalid form shows "Form validation errors found!" |
| RegisterForm.RegisterForm.ShowErrors | client/src/pages/PageRegister/components/RegisterForm.tsx:222-261 | each of the six fields is touched and shows its validator's message; the visibility toggles and the busy flag are kept |
| RegisterForm.RegisterForm.Submit | client/src/pages/PageRegister/components/RegisterForm.tsx:369-384 | sends the six values exactly when the form is valid; otherwise clears and hides both passwords; the validation toast is shown exactly when nothing is sent |
| RegisterForm.RegisterForm.RegisterSettled | client/src/pages/PageRegister/components/RegisterForm.tsx:267-363 | success hands the session on, resets the form and toasts; FORM_ERRORS copies the server's messages when `errors` is an object, and always clears the passwords and toasts; a rejection toasts and clears them; both passwords end hidden and loading ends |
| RegisterForm.RegisterForm.PasswordChanged | client/src/pages/PageRegister/components/RegisterForm.tsx:564-576 | stores the password and re-checks a touched confirmation against the new value |
| RegisterForm.RegisterForm.ConfirmPasswordChanged | client/src/pages/PageRegister/components/RegisterForm.tsx:631-637 | stores the confirmation and checks it, once touched, against the stored password |
| RegisterForm.ConfirmationFollowsPassword | client/src/pages/PageRegister/components/RegisterForm.tsx:564-576 | after a password edit a touched confirmation shows no error exactly when it is non-blank and equal to the new password |
| RegisterForm.ValidRegistrationPasswordsMatch | client/src/pages/PageRegister/components/RegisterForm.tsx:222-261 | a form that validates has a valid email and a non-blank password equal to its confirmation |
| UpdateUserForm.ImageError | client/src/pages/PageUpdateUser/components/UpdateUserForm.tsx:158-185 | no file, or a file of an allowed image type, is fine; anything else has a message |
| UpdateUserForm.ValidatorResults | client/src/pages/PageUpdateUser/components/UpdateUserForm.tsx:191-229 | five results, all `''` exactly when every field and the image are valid |
| UpdateUserForm.RequestBody | client/src/pages/PageUpdateUser/components/UpdateUserForm.tsx:238-253 | each text field is sent exactly when it is non-empty, and the image never is |
| UpdateUserForm.Prefilled | client/src/pages/PageUpdateUser/components/UpdateUserForm.tsx:336-378 | a non-empty string from the loaded user replaces the value; a falsy one leaves the field |
| UpdateUserForm.UpdateUserForm.constructor | client/src/pages/PageUpdateUser/components/UpdateUserForm.tsx:30-58 | every field starts untouched and empty, no image, no user, not updating |
| UpdateUserForm.UpdateUserForm.CurrentUserLoaded | client/src/pages/PageUpdateUser/components/UpdateUserForm.tsx:336-378 | a successful load clears the load error, stores the user and prefills the four text fields; otherwise the load error is set and nothing else changes |
| UpdateUserForm.UpdateUserForm.Validate | client/src/pages/PageUpdateUser/components/UpdateUserForm.tsx:191-229 | all fields touched with their messages, errors collected, valid exactly when all are `''`; an invalid form shows "Form validation errors found!" |
| UpdateUserForm.UpdateUserForm.ShowErrors | client/src/pages/PageUpdateUser/components/UpdateUserForm.tsx:191-229 | the four text inputs and the image input are touched and show their messages; the image, the user and the busy flag are kept |
| UpdateUserForm.UpdateUserForm.Submit | client/src/pages/PageUpdateUser/components/UpdateUserForm.tsx:320-330 | sends `RequestBody` exactly when the text fields and the image are valid, and marks the form as updating; the validation toast is shown exactly when nothing is sent |
| UpdateUserForm.UpdateUserForm.UpdateSettled | client/src/pages/PageUpdateUser/components/UpdateUserForm.tsx:235-314 | a loose `success == true` with data resets the form and navigates to `/profile`; otherwise truthy `errors` copy the server's messages; loading ends |
| UpdateUserForm.BlankUserNameLeavesButtonEnabled | client/src/pages/PageUpdateUser/components/UpdateUserForm.tsx:191-229 | a blank user name fails validation, but the button, which ignores that field, stays enabled |
| UpdateUserForm.ValidFormSendsAllText | client/src/pages/PageUpdateUser/components/UpdateUserForm.tsx:238-253 | with no blank text field, all four are sent and nothing else |
| FormRules.TitleError | client/src/pages/todos/PageCreateTodo/components/CreateTodoForm.tsx:41-54 | `''` exactly when the title is not blank, otherwise the required message; the update todo form uses the same validator |
| CreateTodoForm.BodyError | client/src/pages/todos/PageCreateTodo/components/CreateTodoForm.tsx:60-71 | the body always validates |
| CreateTodoForm.RequestBody | client/src/pages/todos/PageCreateTodo/components/CreateTodoForm.tsx:116-119 | the title is always sent, the body exactly when it is non-empty |
| CreateTodoForm.CreateTodoForm.constructor | client/src/pages/todos/PageCreateTodo/components/CreateTodoForm.tsx:23-35 | both fields start untouched and empty, not creating |
| CreateTodoForm.CreateTodoForm.Validate | client/src/pages/todos/PageCreateTodo/components/CreateTodoForm.tsx:77-107 | both fields touched with their messages; valid exactly when the title is not blank; an invalid form shows "Form validation errors found!" |
| CreateTodoForm.CreateTodoForm.Submit | client/src/pages/todos/PageCreateTodo/components/CreateTodoForm.tsx:152-160 | sends `RequestBody` exactly when the form is valid; the validation toast is shown exactly when nothing is sent |
| CreateTodoForm.CreateTodoForm.CreateSettled | client/src/pages/todos/PageCreateTodo/components/CreateTodoForm.tsx:113-146 | success resets the form and navigates to `/todos`; otherwise truthy `errors` copy the server's messages; `creatingTodo` is never reset |
| CreateTodoForm.ValidFormSendsTitle | client/src/pages/todos/PageCreateTodo/components/CreateTodoForm.tsx:116-119 | a valid form sends the title, and the body only when it is non-empty |
| UpdateTodoForm.RequestBody | client/src/pages/todos/PageUpdateTodo/components/UpdateTodoForm.tsx:152-160 | the id and body are always sent, the title exactly when it is non-empty |
| UpdateTodoForm.UpdateTodoForm.constructor | client/src/pages/todos/PageUpdateTodo/components/UpdateTodoForm.tsx:30-51 | every field starts untouched and empty, not completed, not updating |
| UpdateTodoForm.UpdateTodoForm.TodoLoaded | client/src/pages/todos/PageUpdateTodo/components/UpdateTodoForm.tsx:220-257 | a successful load clears the load error, stores the todo and prefills title, body and completed; otherwise the load error is set and nothing else changes |
| UpdateTodoForm.UpdateTodoForm.Validate | client/src/pages/todos/PageUpdateTodo/components/UpdateTodoForm.tsx:109-143 | all three fields touched with their messages; valid exactly when the title is not blank; an invalid form shows "Form validation errors found!" |
| UpdateTodoForm.UpdateTodoForm.Submit | client/src/pages/todos/PageUpdateTodo/components/UpdateTodoForm.tsx:204-214 | sends `RequestBody` exactly when the form is valid; the validation toast is shown exactly when nothing is sent |
| UpdateTodoForm.UpdateTodoForm.UpdateSettled | client/src/pages/todos/PageUpdateTodo/components/UpdateTodoForm.tsx:149-198 | success resets the form and navigates to `/todos/<id>`; otherwise truthy `errors` copy the server's messages; loading ends |
| UpdateTodoForm.CompletedNeverSent | client/src/pages/todos/PageUpdateTodo/components/UpdateTodoForm.tsx:152-160 | `completed` is never sent, whatever the form holds |

## Left out

- **Cryptography.** `jwt.verify` is an input: the claims when the token
  verifies, nothing when it does not. `bcrypt.compare` and `bcrypt.hash`
  are function parameters. `jwt.decode` is a parameter where a lemma
  varies it.
- **Non-determinism.** `uuid` and `Date.now()` are parameters. A handler
  reads one `now` for all of its steps.
- **Concurrency.** Concurrent requests and the interleaving of the cron
  job with handlers are not modelled. Each handler runs atomically on the
  tables.
- **Async interleavings.** The client's awaits and the React state updates
  between them are not modelled. Each settled promise is one method call.
- **Cron scheduling.** The `*/15 * * * *` schedule is not modelled. The job
  itself is `Cron.CleanUpExpiredTokens`. Its logged errors are not
  modelled either.
- **Mongoose projections.** The `select: false` projections on the
  login and refresh lookups are not modelled. Those handlers read whole
  records.
- **Schemas.** The Zod schemas are parameters that accept or return field
  errors. Their rules are not modelled.
- **Email lookup.** The case-insensitive registration lookup builds a
  regular expression from the email. It is modelled as case-insensitive
  equality, so metacharacters in the email are not.
- **Server failures.** Failures of `save()` other than a duplicate email
  are not modelled, and neither is a duplicate email from the soft
  delete's archived email. Neither are unhandled rejections inside the `jwt.verify`
  callbacks.
- **Route wiring.** The route files and `randomFailMiddlware` are not
  modelled. `Middleware.AuthThenRole` covers the admin route's composition.
- **Client request wrappers.** The request wrappers (`loginUser`,
  `createUser`, `getTodos` and the rest) and `handleError` are not
  modelled. The forms take each settled result as a parameter. A resolved
  result is taken to be an object: the wrappers return the parsed server
  body or `handleError`'s object, never `null` or `undefined`.
  `LoginForm.LoginForm.LoginSettled`, `RegisterForm.RegisterForm.RegisterSettled`,
  `UpdateUserForm.UpdateUserForm.CurrentUserLoaded`,
  `UpdateUserForm.UpdateUserForm.UpdateSettled`,
  `CreateTodoForm.CreateTodoForm.CreateSettled`,
  `UpdateTodoForm.UpdateTodoForm.TodoLoaded` and
  `UpdateTodoForm.UpdateTodoForm.UpdateSettled` therefore leave out the
  throw that destructuring a `null` or `undefined` body would raise.
- **Client rendering.** Page components and rendering are not modelled.
  Neither are the result toasts of the create todo, update todo and update
  user forms, nor `Providers.tsx`. The validation toast is modelled for
  every form: each `Validate` and `Submit` returns it.
- **Events.** The auth-events registry models only the `AUTH_FAILURE`
  list. Listeners are opaque ids.
- **Broadcast channel.** A browser is assumed, where the channel exists.
- **The 1500 ms timer.** Its expiry is its own transition,
  `AuthContext.ResetTimerFired`.
- Store.UserDocument: the `createdAt` and `updatedAt` timestamps and the
  `__v` version key are not modelled. Response bodies that carry a user
  document leave them out, and every write frame, such as
  `UserController.SoftDeleteIsOneWay` and `UserController.Updated`, says
  nothing about the `updatedAt` that each `save()` or update changes.
- DecodeJwt.DecodeJWT: UTF-8 decoding and `JSON.parse` are parameters. The
  argument of `decodeURIComponent` is only ever a string of `%xx` escapes,
  and only that form is modelled.
- FormRules.LooselyTrue: loose `== true` is modelled for booleans and
  numbers. Strings that would coerce to 1 are not.
- FormRules.WithServerError: a truthy server error that is not a string
  leaves the field as it was.
- TodoController.UpdateTodoSpec: the schema's validated `completed` is
  taken as the value the form sent.
- TodoController.Revise: the handler assigns the raw `completed` from the
  request body once the validated one is a boolean. The model assigns the
  validated value. The two agree when the schema passes a boolean through
  unchanged.
- TodoController.NewTodo: `completed` defaults to false, standing in for
  the todo model's default, which is not part of this model.
- UpdateUserForm.UpdateUserForm.Submit: the image is validated but never
  sent, as in the source. The upload itself is not modelled.
- Text.Lower: lower-casing covers the ASCII range only.
- ServerUtils.StripObjOfUndefinedCopies: object identity is not modelled,
  so the contract states equal fields, not a fresh or the same object.
- **Numbers.** JavaScript numbers are floating point. The model's numbers
  are integers, so fractions, `NaN` and infinities in request bodies and
  token claims are not modelled.
