# KlipperAI auth sessions, request gate and job bookkeeping, in Dafny

This project models the refresh-token session lifecycle of the KlipperAI
backend and proves properties about it. The backend issues a short-lived
access JWT and a long-lived refresh JWT, and it stores only a digest of the
refresh token, in one `auth_sessions` row per device. Each refresh rotates the
row's digest in place. A refresh with a token whose row is already revoked
counts as theft and revokes every session of that user. A request gate admits
protected paths only with a valid access token.

Two smaller pieces sit next to the auth core. The first is the string building
of the video service: blob-name normalisation, blob and SAS URLs, and the
processing-status report. The second is the partial update of a processing
job's progress fields.

Modules, one per file:

- `Wrappers` (wrappers.dfy): `Option` for Python's `None`, and `Result` for a raised error.
- `Strings` (strings.dfy): prefix and suffix tests, and Python's `str()` of an int.
- `Tokens` (tokens.dfy): JWT claims, `generate_tokens`, `verify_token`, and the configured lifetimes (15 minutes, 30 days).
- `Models` (models.dfy): the `users` and `auth_sessions` rows, the table constraints, and the delete cascade.
- `Schemas` (schemas.dfy): request validation and the `UserResponse` projection.
- `AuthService` (auth_service.dfy): the class `AuthDb`, which holds both tables, the id sequences and the refresh-token digest function. The service operations are module-level methods that take `db: AuthDb`, as the static methods take the database session. Each changes the tables in place and is proved against a function that specifies it.
- `AuthRouters` (auth_routers.dfy): the register, login, refresh and logout handlers. Each is a function from the old tables to an outcome (status, detail, issued credentials) and the new tables. A method that takes `db: AuthDb` and updates it in place follows each function. Lemmas cover rotation, reuse detection and the invariants.
- `Middleware` (middleware.dfy): the public-path test and the gate's decision. `Dispatch` writes the user id into a `RequestState` object.
- `ProcessingJobs` (processing_jobs.dfy), `Progress` (progress.dfy) and `VideoServices` (video_services.dfy): job rows, `update_job_progress` over a `JobTable` class, and the video service's string building and status report.

The invariant that every state-changing method keeps is `AuthDb.Valid()`,
built on `Models.TablesValid`. It requires unique user ids and emails, names of
at most 150 characters, unique session ids and digests, at most one
non-revoked session per (user, device), a `revoked_at` stamp exactly on
revoked rows, and an existing owner for every session. The four handlers,
`CreateAuthSession`, `ValidateRefreshToken` and `RevokeAllUserSessions` also
keep `RevokedRowsFrozen`: they never change a row that was already revoked.
`RevokeSession` keeps it only on a live row; on an already revoked row it
re-stamps `revoked_at`, as the service does.

A database commit is modelled by `Models.Committable`. The database refuses a
commit that would duplicate a refresh-token digest or orphan a session. The
session is then rolled back and the handler answers 500. The declared
`(user_id, device_id)` unique constraint is not part of `Committable`. See
Findings.

## Model

| member | source | states |
|---|---|---|
| Tokens.GenerateTokens | src/api/modules/auth/service.py:31-52 | both tokens are signed and carry the user id and their type; both are issued at `now`; access expires after 15 minutes and refresh after 30 days, so access expires first |
| Tokens.VerifyToken | src/api/modules/auth/service.py:55-65 | yields the payload iff the signature checks, `now < exp` and the type claim is the expected one; otherwise None, never an error |
| Tokens.GeneratedTokensVerify | src/api/modules/auth/service.py:31-65 | a fresh token verifies as its own type exactly until its own expiry, and never as the other type |
| Tokens.RefreshTokensEqualIffSameSecond | src/api/modules/auth/service.py:31-52 | two refresh tokens for one user are identical iff they were issued in the same second (the tokens carry no nonce) |
| Models.FindUserById | src/api/modules/auth/routers.py:306-307 | finds a user with that id, or reports that none has it |
| Models.FindUserByEmail | src/api/modules/auth/service.py:96 | finds a user with that email, or reports that none has it |
| Models.UsersWithout | src/shared/models/user.py:17 | after deleting user `id`, exactly the other users remain |
| Models.SessionsWithout | src/shared/models/auth_session.py:14 | after the cascade, exactly the sessions of other users remain |
| Models.CascadeKeepsSessionsOwned | src/shared/models/user.py:17 | deleting a user together with its sessions leaves no session without an owner |
| Schemas.ParseRegister | src/api/modules/auth/schemas.py:6-10 | a body is accepted iff the email is present and well formed, the password has at least 8 characters and the name is absent or at most 150 characters; an accepted body keeps its fields |
| Schemas.ParseLogin | src/api/modules/auth/schemas.py:13-16 | a body is accepted iff the email is present and well formed and a password is present, of any length |
| Schemas.ResponseHidesPasswordHash | src/api/modules/auth/schemas.py:25-30 | the user response is the same whatever the stored password hash, so the hash is never exposed |
| Schemas.ShortPasswordOnlyAtLogin | src/api/modules/auth/schemas.py:10-16 | a one-character password passes login validation and fails registration validation |
| AuthService.ResolveDevice | src/api/modules/auth/service.py:113-114 | a present, non-empty device id is kept; otherwise the freshly minted uuid is used |
| AuthService.Authenticate | src/api/modules/auth/service.py:94-103 | returns only a stored user with that email whose hash passes the password check; with unique emails it returns None iff no user with that email passes the check, so unknown emails and wrong passwords give the same None |
| AuthService.AddUserKeepsValid | src/api/modules/auth/service.py:73-91 | a user with a fresh id, an unused email and a name that fits keeps every table invariant |
| AuthService.RevokeRow | src/api/modules/auth/service.py:178-182 | revoking sets `revoked` and `revoked_at = now` and changes nothing else in the row |
| AuthService.ActiveLookup | src/api/modules/auth/service.py:117-123 | finds a non-revoked session of that user and device, or reports that none exists |
| AuthService.InsertSession | src/api/modules/auth/service.py:106-143 | one row is appended: live, the given digest, expiring 30 days from now; every old row is unchanged, except that a live row of the same (user, device) is revoked at now |
| AuthService.InsertSessionLeavesOneActive | src/api/modules/auth/service.py:116-141 | after creation the new row is the only live session of its (user, device); the previously live one is revoked at now; at most one live session per (user, device) is preserved |
| AuthService.InsertSessionBreaksUserDevice | src/shared/models/auth_session.py:37-39 | once any row, even a revoked one, exists for the pair, creating a session for that pair breaks the declared unique (user_id, device_id) constraint |
| AuthService.InsertSessionKeepsValid | src/api/modules/auth/service.py:106-143 | a committed session creation keeps every table invariant and never changes a revoked row |
| AuthService.RevokeAtKeepsValid | src/api/modules/auth/service.py:178-182 | revoking one row keeps every table invariant, and leaves other revoked rows untouched |
| AuthService.TouchKeepsValid | src/api/modules/auth/service.py:170-173 | stamping `last_used_at` keeps every table invariant |
| AuthService.RevokeAllOf | src/api/modules/auth/service.py:185-198 | every session of the user ends revoked; other users' rows and already revoked rows are unchanged, so earlier `revoked_at` stamps are kept; each row is treated on its own, as one step of the loop would treat it |
| AuthService.RevokeAllKeepsValid | src/api/modules/auth/service.py:185-198 | revoking all of a user's sessions keeps every table invariant and never changes a revoked row |
| AuthService.ValidateLookup | src/api/modules/auth/service.py:146-168 | a row is found only if the token verifies as a refresh token with a non-zero subject, and the row belongs to that subject, holds the token's digest, is live and is unexpired; the device is not consulted |
| AuthService.CreateUser | src/api/modules/auth/service.py:73-91 | a taken email yields no user and no change; otherwise the user is appended under the next id and the invariant holds |
| AuthService.CreateAuthSession | src/api/modules/auth/service.py:106-143 | the new tables equal the committed insertion, or are unchanged when the commit is refused; the invariant holds and revoked rows stay frozen |
| AuthService.ValidateRefreshToken | src/api/modules/auth/service.py:146-175 | returns the row that `ValidateLookup` selects, with `last_used_at = now`; without a match, None and no change |
| AuthService.RevokeSession | src/api/modules/auth/service.py:178-182 | exactly that row is revoked at now, and the invariant holds; revoking a live row changes no revoked row, while an already revoked row gets a new revoked_at |
| AuthService.RevokeLiveSessions | src/api/modules/auth/service.py:189-196 | the loop over the rows leaves exactly `RevokeAllOf` of the input |
| AuthService.RevokeAllUserSessions | src/api/modules/auth/service.py:185-198 | the table becomes `RevokeAllOf` of the old table, and the invariant holds |
| AuthService.RotateRefreshToken | src/api/modules/auth/service.py:201-218 | issues a pair for the given user id, revokes the old row, and the new table is create_auth_session's result for that user on the old row's device; when the user id is the old row's owner and the new session commits, the table breaks the (user_id, device_id) constraint |
| AuthRouters.RefreshLookup | src/api/modules/auth/routers.py:277-285 | finds a session with that user, device and digest that has not expired, whether revoked or not, or reports that none exists |
| AuthRouters.Rotate | src/api/modules/auth/routers.py:318-322 | only the matched row changes: its digest becomes the new one, `last_used_at = now`, and it expires 30 days from now |
| AuthRouters.Register | src/api/modules/auth/routers.py:31-114 | the in-place handler produces exactly `RegisterSpec`'s outcome and tables, keeping the invariant |
| AuthRouters.Login | src/api/modules/auth/routers.py:127-211 | the in-place handler produces exactly `LoginSpec`'s outcome and tables, keeping the invariant |
| AuthRouters.Refresh | src/api/modules/auth/routers.py:225-356 | the in-place handler produces exactly `RefreshSpec`'s outcome and tables, keeping the invariant and never changing a revoked row |
| AuthRouters.Logout | src/api/modules/auth/routers.py:369-419 | the in-place handler produces exactly `LogoutSpec`'s outcome and tables, keeping the invariant |
| AuthRouters.RotateKeepsValid | src/api/modules/auth/routers.py:318-322 | rotating a live row keeps every invariant when the new digest is unique |
| AuthRouters.RefreshEarlyRejections | src/api/modules/auth/routers.py:245-267 | a missing cookie, a token that is not a valid unexpired refresh token, or a zero or absent subject each give its own 401 and change nothing |
| AuthRouters.RefreshRefusalChangesNothing | src/api/modules/auth/routers.py:245-311 | every refusal except 403 leaves both tables as they were |
| AuthRouters.ReuseDetectedIff | src/api/modules/auth/routers.py:277-303 | for a well-formed request, the answer is 403 iff the unexpired row with this user, device and digest is revoked |
| AuthRouters.ReuseRevokesEverySession | src/api/modules/auth/routers.py:294-303 | after a 403, every session of the token's user, on every device, is revoked; other users' rows and already revoked rows are untouched |
| AuthRouters.RefreshSuccessRotatesMatchedRow | src/api/modules/auth/routers.py:305-322 | a success answers 200 with the access and refresh tokens generate_tokens gives for the token's user at now, and no device cookie; the table is the matched live row rotated to the new refresh token's digest |
| AuthRouters.OldRefreshTokenRejected | src/api/modules/auth/routers.py:277-322 | after a successful refresh, the old token, if issued in an earlier second and under collision-free digests, gets 401 from any device at any time, with no change |
| AuthRouters.SameSecondRefreshKeepsOldToken | src/api/modules/auth/routers.py:314-322 | a refresh within the second of issuance hands back the same token, and refreshing with it again in that second succeeds |
| AuthRouters.ReplayAfterLogoutIsReuse | src/api/modules/auth/routers.py:389-401 | replaying a logged-out, still unexpired refresh token with its device id gets 403, and all of the user's sessions are revoked |
| AuthRouters.LoginFailuresLookAlike | src/api/modules/auth/routers.py:144-155 | with unique emails, the 401 "Invalid email or password" with no change happens iff no user with that email has a matching password |
| AuthRouters.LoginCreatesSession | src/api/modules/auth/routers.py:158-169 | a successful login answers 200 with the new device id and the access and refresh tokens generate_tokens gives for the authenticated user at now; it appends one session, and that session is the only live one for its (user, device) |
| AuthRouters.RegisterDuplicateEmail | src/api/modules/auth/routers.py:103-108 | registering a taken email gives 400 with the service's message, and creates no user and no session |
| AuthRouters.LogoutRevokesMatchedSession | src/api/modules/auth/routers.py:389-401 | logout succeeds iff the token validates; it then stamps and revokes that one row at now; otherwise 401 with no change |
| AuthRouters.LogoutIgnoresDeviceValue | src/api/modules/auth/routers.py:383-391 | the device cookie must only be present; its value does not affect logout |
| AuthRouters.RefreshKeepsValid | src/api/modules/auth/routers.py:225-356 | every refresh outcome keeps the table invariants and never changes a revoked row |
| AuthRouters.LogoutKeepsValid | src/api/modules/auth/routers.py:369-419 | every logout outcome keeps the table invariants and never changes a revoked row |
| AuthRouters.LoginKeepsValid | src/api/modules/auth/routers.py:127-211 | every login outcome keeps the table invariants and never changes a revoked row |
| AuthRouters.RegisterKeepsValid | src/api/modules/auth/routers.py:31-114 | every register outcome keeps the table invariants and never changes a revoked row |
| Middleware.AnyPrefix | src/middleware/auth_middleware.py:24 | true iff the path starts with some configured prefix |
| Middleware.IsPublicPath | src/middleware/auth_middleware.py:21-26 | public iff the path is an exact public path or starts with a public prefix |
| Middleware.Dispatch | src/middleware/auth_middleware.py:28-52 | the verdict is the gate's decision; the request state gets the user id exactly on an authenticated forward, and is otherwise untouched |
| Middleware.OptionsAlwaysForwarded | src/middleware/auth_middleware.py:31-32 | an OPTIONS request is forwarded without any token check |
| Middleware.PublicPathSkipsCookie | src/middleware/auth_middleware.py:34-35 | a public path is forwarded whatever the cookie holds |
| Middleware.PrefixIsPlainString | main.py:45-49 | under the installed gate, "/auth/login" and "/authx" are public; "/videos/upload" and "/au" are not |
| Middleware.NoPrefixesOnlyExactPaths | src/middleware/auth_middleware.py:18-19 | with no prefixes configured, a path is public iff it is listed exactly |
| Middleware.ProtectedPathAdmitsIff | src/middleware/auth_middleware.py:37-52 | on a protected path: no cookie gives the 401 for a missing cookie; the request is forwarded iff the cookie is a signed, unexpired access token with a non-zero subject, and that subject is the recorded id |
| Middleware.RefreshTokenIsNotAccess | src/middleware/auth_middleware.py:44-49 | a refresh token in the auth cookie gets 401 on a protected path |
| Middleware.IssuedAccessTokenAdmits | src/middleware/auth_middleware.py:44-52 | an issued access token opens protected paths as its user for 15 minutes, and gets 401 afterwards |
| Strings.DecimalString | src/api/modules/video_input_output/services.py:49 | Python's `str()` of an int is non-empty and made of digits and a leading minus |
| Strings.DecimalStringInjective | src/api/modules/video_input_output/services.py:49 | distinct user ids print differently |
| ProcessingJobs.StatusValue | src/shared/enums/processing_status.py:4-9 | each status has one of the four enum strings |
| ProcessingJobs.StatusValueInjective | src/shared/enums/processing_status.py:4-9 | distinct statuses have distinct strings |
| ProcessingJobs.FindJob | src/shared/services/progress_service.py:31 | finds the first job with that id, or reports that none has it |
| Progress.ApplyProgress | src/shared/services/progress_service.py:36-41 | each provided field takes the provided value, each absent one keeps its old value, and no other field changes |
| Progress.NothingProvidedIsIdentity | src/shared/services/progress_service.py:36-41 | an update that provides nothing leaves the job unchanged |
| Progress.ApplyProgressIdempotent | src/shared/services/progress_service.py:36-41 | applying the same update twice equals applying it once |
| Progress.SuccessiveUpdatesCompose | src/shared/services/progress_service.py:36-41 | two updates equal one in which, field by field, the later provided value wins |
| Progress.UpdateJobProgress | src/shared/services/progress_service.py:11-51 | an unknown id gives False and no change; a refused commit gives False and no change; otherwise True, with only that job updated, as `ApplyProgress` says |
| VideoServices.Folder | src/api/modules/video_input_output/services.py:133-136 | the folder always starts with "videos/" |
| VideoServices.NormaliseBlobName | src/api/modules/video_input_output/services.py:132-136 | the result starts with "videos/" and ends with the given name; a name already under "videos/" is unchanged; otherwise the user folder or "videos/" is prefixed |
| VideoServices.NormaliseIdempotent | src/api/modules/video_input_output/services.py:132-136 | normalising twice equals normalising once, whatever user is passed the second time |
| VideoServices.GetBlobUrl | src/api/modules/video_input_output/services.py:120-138 | the URL is under the account's blob host and the container's "videos/" folder, and ends with the given name |
| VideoServices.VerifyBlobExists | src/api/modules/video_input_output/services.py:91-118 | true iff the existence probe of the normalised name answers yes; a probe error gives False |
| VideoServices.VerifyAndUrlAgree | src/api/modules/video_input_output/services.py:105-138 | the existence check and the URL address the same normalised blob, for every spelling of the name |
| VideoServices.UploadFileName | src/api/modules/video_input_output/services.py:45-51 | the file part ends with "." and the extension |
| VideoServices.UploadBlobName | src/api/modules/video_input_output/services.py:48-51 | the upload blob name starts with "videos/" and ends with "." and the extension |
| VideoServices.GenerateUploadSasUrl | src/api/modules/video_input_output/services.py:43-85 | the ticket's blob name is the upload blob name; the SAS URL is the blob URL, then "?", then the SAS token; the container is the configured one; the blob URL is what the blob-URL lookup gives for that name, with or without a user |
| VideoServices.BareFileNameResolvesToUpload | src/api/modules/video_input_output/services.py:105-109 | the bare upload file name, with the same user, normalises to the uploaded blob's full name |
| VideoServices.UserFoldersDisjoint | src/api/modules/video_input_output/services.py:48-49 | two names under user folders are equal only if the user ids are equal |
| VideoServices.UploadNamesOfUsersDiffer | src/api/modules/video_input_output/services.py:48-49 | upload blob names of two different users never coincide |
| VideoServices.FindVideo | src/api/modules/video_input_output/services.py:156-158 | finds a video with that id, or reports that none has it |
| VideoServices.LatestJob | src/api/modules/video_input_output/services.py:161-163 | picks a job of the video with the greatest `created_at`, or None iff the video has no job |
| VideoServices.ProgressOrZero | src/api/modules/video_input_output/services.py:183 | an absent progress reads as 0.0, and a present one as itself |
| VideoServices.GetProcessingStatus | src/api/modules/video_input_output/services.py:140-187 | an unknown video gives the "Video not found" error; a video without jobs reports "uploaded", progress 0.0 and the video's creation time; otherwise it reports the fields of a most recent job |
| VideoServices.ReportNamesJobIff | src/api/modules/video_input_output/services.py:165-187 | the report names a job iff the video has one, and then its status is never "uploaded" |

## Left out

- HTTP and FastAPI mechanics are not modelled: cookie attributes and `max_age`, response bodies beyond the user projection, dependency injection and logging. The model keeps only the status, the detail message and the credentials that are set.
- Body validation happens before the handler runs. FastAPI answers an invalid body with 422. `Register` requires an already validated request, and `Schemas.ParseRegister`/`ParseLogin` model the validation itself. `EmailStr` syntax is a parameter. Email normalisation and the 200-character email column are not modelled.
- `Register` and `Login` require a non-empty device id, because `str(uuid4())` is never empty. uuid4, bcrypt hashing and the clock are parameters.
- Cryptography is abstract. The HS256 signature is a flag on the token. A malformed or tampered token is one whose signature fails; a missing or empty refresh cookie is `None`, and the refresh and logout handlers answer it, like a missing or empty device cookie, with their own 401. SHA-256 is the uninterpreted function `AuthDb.H`. Collision freedom is assumed only where a lemma requires it. bcrypt's check is a function parameter.
- PyJWT checks nothing beyond `exp` in the model. A token is valid iff `now < exp`, in whole seconds. Each request uses one `now` for all of its `datetime.now` calls.
- The `device_id` column has type UUID. A cookie that is not a UUID makes the database raise, and the handler answers 500. The model compares device ids as strings.
- A `user_id` claim is taken as an int. `int(...)` conversions of other JSON types are not modelled.
- A commit fails in the model only on a duplicate digest or an orphaned session. Other database failures are not modelled. Commits of `validate_refresh_token`, `revoke_session` and `revoke_all_user_sessions` always succeed. So the 500 answer of logout is not modelled, and a 500 from register, login or refresh arises only from a refused commit.
- Concurrency is left out. In particular, two refreshes racing on the same row (src/api/modules/auth/routers.py:277-322) are not modelled; the model runs one request at a time.
- No route calls `rotate_refresh_token`; `RotateRefreshToken` models it on its own. Its `user_id` argument is not checked against the old session's owner, and the model keeps that freedom.
- src/api/modules/auth/service.py:12 and src/api/modules/auth/routers.py:274 import `AuthSession` from `src.models.DbModels`, whose `__init__.py` does not export it. The model follows the `AuthSession` mapping in src/shared/models/auth_session.py and the `User` mapping in src/shared/models/user.py.
- The `ProcessingJob` class in src/shared/models/processing_job.py:6-16 declares no `current_step` or `progress_percentage` column. The model follows src/shared/services/progress_service.py and the video service, which write and read them as job fields.
- Progress percentages are exact reals, not floats. `created_at` is always set by its server default. Among jobs with equal `created_at`, the model picks the earliest row; the database leaves that order unspecified.
- The Azure clients are parameters or left out: `generate_blob_sas`, the blob client's `exists()` (a probe parameter), and the SAS expiry time. The upload timestamp is a parameter in `%Y%m%d_%H%M%S` form.
- Some parts of the repository are not part of this model: the worker, queue service and AI pipeline, the thin video and user routers, and the user profile module.

## Findings

| source | as written | input that shows it | evidently intended | confidence | as-written member | corrected member |
|---|---|---|---|---|---|---|
| src/shared/models/auth_session.py:37-39 | `UniqueConstraint('user_id', 'device_id')` covers every row, revoked ones included, while create_auth_session (src/api/modules/auth/service.py:116-141) revokes the live row of the pair and inserts a second row for the same pair | any `create_auth_session` for a (user, device) that already has a row, e.g. `rotate_refresh_token` called with the old session's owner as `user_id`: the flushed table holds two rows for the pair, so the commit is refused and the revoke branch can never commit | at most one live session per (user, device), with revoked history rows allowed, i.e. a uniqueness over non-revoked rows only | medium, not executed | AuthService.InsertSessionBreaksUserDevice | AuthService.InsertSessionLeavesOneActive |
