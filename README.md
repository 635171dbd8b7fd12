# Have_Dominion authentication core in Dafny

This project models the authentication and account-management core of the
Have_Dominion service and proves properties of the model. The backend is an
Express API over a MongoDB `users` collection. The frontend is a React
single-page app.

Backend parts modelled:

- `AuthService` signs users and admins up and logs them in. Signup checks
  the email across both roles. Admin signup first checks a pre-shared
  secret. Login is scoped to the role.
- `jwt` issues and verifies 7-day tokens. The admin key is used iff
  `isAdmin`. It also extracts the `Bearer` header.
- `authMiddleware` and `optionalAuthMiddleware` are the request gates.
- `validate` runs the Joi schemas, collects every violation, and lowercases
  and trims the email.
- `AdminService` and `UserService` are the store operations behind the
  admin and user routes.
- `AppError` and `errorHandler` build the JSON error envelope.

Frontend parts modelled:

- The route guards of `AppRoutes.jsx` and the standalone `AdminRoute.jsx`.
- The `AuthProvider` session state of `AuthContext.jsx`: restoring on load,
  login, logout and the derived flags.

The store is `Users.UserStore`: a map from ids to records. Its invariant
`Valid()` is the unique email index. Every service call takes a fault flag
that says whether the store call raises. Time is a `now: nat` parameter.
Password hashing and comparison are a `Hasher` collaborator. A token is
modelled by what jsonwebtoken would decode from it: the claims, the signing
key and the time claims. A `decode` parameter stands for parsing a client's
token string.

The backend has no session-validation endpoint and no server-side logout,
so neither is modelled. The frontend's `logout` posts to `/auth/logout`,
which no backend route defines; that call's failure is ignored, as in the
code.

Route matching follows React Router: a path is compared with the route
table after dropping its trailing slashes and folding ASCII letters to
lower case, so `/ADMIN/DASHBOARD` and `/admin/dashboard/` reach the admin
dashboard. `ProtectedRoute` instead tests the path as typed with a
case-sensitive `startsWith('/admin')`, so a signed-out visitor of
`/Admin/users` is sent to `/login`, not `/admin/login`.

The backend error envelope puts the message under `error.message`. The
frontend's `login` reads `err.response.data.message`. So a rejected login
shows axios's own message. `AuthContext.FailureMessage` models that choice.

## Model

| member | source | states |
|---|---|---|
| AuthService.AuthService.Signup | backend/internal/api/services/auth.service.js:7-84 | the new store and the answer satisfy `SignedUp`: a read failure is SIGNUP_ERROR; a taken email (either role) is EMAIL_EXISTS with nothing stored; else one record is inserted and the token outcome is returned; email uniqueness is kept |
| AuthService.AuthService.SignupUser | backend/internal/api/services/auth.service.js:7-42 | signup with role `user` and a user-key token |
| AuthService.AuthService.SignupAdmin | backend/internal/api/services/auth.service.js:44-84 | a wrong admin secret is 403 INVALID_ADMIN_SECRET before any store access, store unchanged; otherwise signup with role `admin` and an admin-key token |
| AuthService.AuthService.Login | backend/internal/api/services/auth.service.js:86-168 | the new store and the answer satisfy `LoggedInto` for the role-scoped lookup; email uniqueness is kept |
| AuthService.AuthService.LoginUser | backend/internal/api/services/auth.service.js:86-126 | login restricted to role `user` |
| AuthService.AuthService.LoginAdmin | backend/internal/api/services/auth.service.js:128-168 | login restricted to role `admin` |
| AuthService.ExpectedAdminSecret | backend/internal/api/services/auth.service.js:46 | the expected admin secret is never empty: `ADMIN_SECRET` when set and non-empty, else `admin-secret-key` |
| AuthService.SignupKeepsEmailsUnique | backend/internal/api/services/auth.service.js:9-21 | signup preserves the unique email index |
| AuthService.SignupSuccess | backend/internal/api/services/auth.service.js:14-36 | a successful signup found the email free, added exactly one record with the role and an active flag, left every other record alone, and returned a token for `{id, email, role}` under the role's key |
| AuthService.SignupStoresBeforeSigning | backend/internal/api/services/auth.service.js:21-31 | with the role's signing key unset, the account is still stored and the answer is TOKEN_GENERATION_ERROR |
| AuthService.LoginRecord | backend/internal/api/services/auth.service.js:88-104 | under unique emails, login behaves as `LoginWith` on the one record registered under `(email, role)` |
| AuthService.LoginBadCredentials | backend/internal/api/services/auth.service.js:88-96 | unknown email and wrong password give the same INVALID_CREDENTIALS, and the store is unchanged |
| AuthService.LoginOtherRole | backend/internal/api/services/auth.service.js:88-91 | an email registered only under the other role gets INVALID_CREDENTIALS |
| AuthService.LoginInactive | backend/internal/api/services/auth.service.js:93-100 | a correct password on an inactive account gets 403 ACCOUNT_INACTIVE and the store is unchanged |
| AuthService.LoginSuccess | backend/internal/api/services/auth.service.js:102-120 | a successful login had the matching, active, password-checked record; it changes only that record (`lastLogin := now`, `loginCount + 1`) and returns a token under the role's key |
| AuthService.LoginKeepsEmailsUnique | backend/internal/api/services/auth.service.js:102-104 | login preserves the unique email index |
| Jwt.GenerateToken | backend/internal/auth/jwt.js:5-16 | fails with TOKEN_GENERATION_ERROR iff the selected secret is unset or empty; otherwise the token carries the payload, the admin key iff `isAdmin`, and expiry `now + 7 days` |
| Jwt.SecretFor | backend/internal/auth/jwt.js:6 | the key is one of the two configured secrets, and with distinct secrets it is the admin one iff `isAdmin` |
| Jwt.LibraryVerify | backend/internal/auth/jwt.js:22 | verification succeeds iff the token decodes, the secret is usable and matches the signing key, `nbf` has passed and `now < exp`, and yields the payload; failures are checked in the library's order: a bad token, key or secret is JsonWebTokenError, then an unreached `nbf` is NotBeforeError, then `now >= exp` is TokenExpiredError |
| Jwt.VerifyError | backend/internal/auth/jwt.js:24-32 | every library failure becomes a 401: expired to TOKEN_EXPIRED, JsonWebTokenError to INVALID_TOKEN, anything else to TOKEN_VERIFICATION_ERROR |
| Jwt.VerifyToken | backend/internal/auth/jwt.js:18-33 | succeeds iff the library accepts the token under the key `isAdmin` selects, with the decoded payload; a failure is the 401 error `VerifyError` maps the library's own error to |
| Jwt.ExtractToken | backend/internal/auth/jwt.js:35-40 | succeeds iff the header exists and starts with `Bearer `, and the prefix plus the result is the header; otherwise MISSING_TOKEN |
| Jwt.ExtractBearer | backend/internal/auth/jwt.js:35-40 | extraction inverts prefixing `Bearer ` for every token string |
| Jwt.VerifyGenerated | backend/internal/auth/jwt.js:5-33 | a generated token verifies to its payload with the same flag before expiry and is TOKEN_EXPIRED from then on |
| Jwt.RoleKeysSeparate | backend/internal/auth/jwt.js:6-19 | with distinct secrets, a token signed for one role is INVALID_TOKEN under the other |
| Middleware.Request.AuthMiddleware | backend/internal/auth/middleware.js:4-21 | `next` is called once, with the gate's error or with nothing; on success `req.user` is the gate's claims, otherwise it is unchanged |
| Middleware.Request.OptionalAuthMiddleware | backend/internal/auth/middleware.js:23-37 | `next()` is always called bare; `req.user` is set exactly when a header is present and verifies |
| Middleware.Gate | backend/internal/auth/middleware.js:6-15 | the errors come in order: MISSING_TOKEN when extraction fails, then the verification error, then FORBIDDEN iff `isAdmin` and the role claim is not `admin`; an admitted request carries the verified claims |
| Middleware.OptionalUser | backend/internal/auth/middleware.js:25-33 | a user is attached iff the header extracts and verifies, and it is the verified claims; with `isAdmin = false` that is exactly when the strict gate admits |
| Middleware.OptionalIgnoresRole | backend/internal/auth/middleware.js:23-37 | the optional gate attaches a user iff the strict gate admits it or refuses it only as FORBIDDEN |
| Middleware.GateYieldsVerifiedClaims | backend/internal/auth/middleware.js:8-15 | an admitted request's user is exactly what `verifyToken` returned for the extracted token |
| Middleware.ForbiddenOnlyAfterVerification | backend/internal/auth/middleware.js:8-13 | FORBIDDEN iff extraction and verification succeed, `isAdmin` holds and the role claim is not `admin` |
| Middleware.UserGateNoRoleCheck | backend/internal/auth/middleware.js:11 | with `isAdmin = false` the gate's answer is the verification's answer, whatever the role |
| Middleware.ForbiddenNeedsAdminKey | backend/internal/auth/middleware.js:9-13 | a FORBIDDEN answer needs a token signed with the admin secret whose role claim is not `admin` |
| Middleware.UserTokenAtAdminGate | backend/internal/auth/middleware.js:9-13 | with distinct secrets, a user-key token at the admin gate fails as INVALID_TOKEN before the role check |
| Middleware.SharedSecretsReachForbidden | backend/internal/auth/middleware.js:9-13 | with equal secrets, a verified non-admin user token at the admin gate is FORBIDDEN |
| Validation.Messages | backend/internal/common/validation.js:42-44 | the i-th message is Joi's message for the i-th violation, one per violation |
| Validation.Schema | backend/internal/common/validation.js:4-35 | a schema exists exactly for the five names; every field is required except in `updateUser`, and exactly the `email` field carries the email check |
| Validation.RuleViolationsEmptyIff | backend/internal/common/validation.js:4-31 | a field has no violation iff it satisfies its rule (required, string, non-empty, email, min and max length in UTF-16 code units) |
| Validation.DeclaredViolationsEmptyIff | backend/internal/common/validation.js:4-31 | no declared field has a violation iff every declared field satisfies its rule |
| Validation.UnknownViolationsEmptyIff | backend/internal/common/validation.js:4-31 | there is no "is not allowed" violation iff every key of the body is declared by the schema |
| Validation.ViolationsEmptyIff | backend/internal/common/validation.js:40-45 | the violation list is empty iff the body conforms to the schema |
| Validation.NormalizeEmailIdempotent | backend/internal/common/validation.js:47-50 | the normalised email is already normalised: lowercasing and trimming again changes nothing |
| Validation.NormalizeEmailField | backend/internal/common/validation.js:47-50 | normalisation keeps the body's length and keys and every field other than `email` |
| Validation.NormalizedBodyFields | backend/internal/common/validation.js:47-52 | after normalisation every non-email lookup is unchanged, a non-empty string email becomes its normalised form, and the result is normalised |
| Validation.Validate | backend/internal/common/validation.js:34-53 | a name that is neither one of the five schemas nor an `Object.prototype` property is 500 VALIDATION_ERROR `Invalid schema name`; an inherited name such as `constructor` or `__proto__` passes the `!schema` check and fails with the TypeError `schema.validate is not a function`; otherwise it succeeds iff the body conforms; failure is 400 VALIDATION_ERROR with all messages joined by `, `; success returns the body with its email normalised |
| Validation.InheritedNameIsNoSchema | backend/internal/common/validation.js:4-36 | no `Object.prototype` property is one of the five schemas, so the lookup's truthy result for it is not a schema |
| Validation.InheritedNameIsInternalError | backend/internal/common/error-handler.js:11-31 | the TypeError of an inherited name carries no status and no code, so the client gets 500 INTERNAL_ERROR with the TypeError's message |
| Validation.SignupBounds | backend/internal/common/validation.js:5-16 | a conforming signup body has a string name of 2..100 UTF-16 code units, a valid email, and a password of 6..100 (user) or 8..100 (admin) code units |
| Validation.UpdateUserKeys | backend/internal/common/validation.js:28-31 | a conforming update body has only `name` and `email` keys, and the empty body conforms |
| Text.ToLower | backend/internal/common/validation.js:49 | lowercasing keeps the length |
| Text.ToLowerMaps | backend/internal/common/validation.js:49 | lowercasing maps every character by its ASCII lower case and leaves no uppercase ASCII letter |
| Text.ToLowerFixesLower | backend/internal/common/validation.js:49 | lowercasing a lowercase string is the identity |
| Text.SkipWhitespace | backend/internal/common/validation.js:49 | the index where `trim` starts keeping characters: everything skipped is whitespace and the character there is not |
| Text.SkipWhitespaceBack | backend/internal/common/validation.js:49 | the index where `trim` stops keeping characters: everything dropped is whitespace and the character before it is not |
| Text.Trim | backend/internal/common/validation.js:49 | the result is an infix of the input with only whitespace removed before and after it, no whitespace at either end, and it stays lowercase if the input was |
| Text.TrimIdempotent | backend/internal/common/validation.js:49 | trimming twice is trimming once |
| Text.Utf16Length | backend/internal/common/validation.js:6-14 | the length Joi's `min` and `max` compare is between the character count and twice it, and equals it when no character is beyond U+FFFF |
| Text.Utf16LengthOfAstral | backend/internal/common/validation.js:6-14 | one emoji is one character but two code units of length |
| Text.NatToString | backend/internal/common/validation.js:43 | the decimal numbers in Joi's length messages are non-empty digit strings that denote the number, with no leading zero |
| ErrorHandler.NewAppError | backend/internal/common/error-handler.js:3-9 | message and status are stored as given; the code defaults to INTERNAL_ERROR only when not passed |
| ErrorHandler.Envelope | backend/internal/common/error-handler.js:11-31 | status, code and message each fall back to 500, INTERNAL_ERROR and `Internal server error` exactly when falsy; the body has only code, message and timestamp, never the stack |
| ErrorHandler.AppErrorPassesThrough | backend/internal/common/error-handler.js:11-31 | an AppError with all three fields set reaches the client unchanged |
| ErrorHandler.Response.ErrorHandler | backend/internal/common/error-handler.js:11-31 | the response's status and JSON are the envelope's |
| Users.UserStore.FindOne | backend/internal/api/services/auth.service.js:9 | returns a matching record's id, or none exactly when no record matches |
| Users.UserStore.Find | backend/internal/api/services/admin.service.js:18-22 | the page is the window `skip`, `limit` of a newest-first ordering of exactly the matching records, as views without passwords |
| Users.InsertNewestFirst | backend/internal/api/services/admin.service.js:22 | insertion returns a permutation of the sequence plus the new element |
| Users.InsertKeepsNewestFirst | backend/internal/api/services/admin.service.js:22 | insertion keeps a newest-first sequence newest-first |
| Users.Window | backend/internal/api/services/admin.service.js:20-21 | the window has `min(limit, n - skip)` elements (none past the end), taken in order from position `skip` |
| Users.UserStore.Insert | backend/internal/api/services/auth.service.js:14-21 | a record with a fresh email gets a fresh id, and the store invariant is kept |
| Users.UserStore.Save | backend/internal/api/services/auth.service.js:102-104 | a loaded record is written back under its id with the same email |
| Users.UserStore.FindByIdAndUpdate | backend/internal/api/services/admin.service.js:59-62 | a missing id changes nothing; an email another record holds is refused by the unique index; otherwise exactly that record gets the patch |
| Users.UserStore.FindByIdAndDelete | backend/internal/api/services/admin.service.js:79 | removes exactly that record and returns it, or returns none if it is absent |
| AdminService.PageOf | backend/internal/api/services/admin.service.js:14 | a falsy (0) page becomes 1 and a given one is kept, so the page is never 0 |
| AdminService.LimitOf | backend/internal/api/services/admin.service.js:15 | a falsy (0) limit becomes 10 and a given one is kept, so the limit is never 0 |
| AdminService.CeilDiv | backend/internal/api/services/admin.service.js:34 | `Math.ceil(total / limit)`: for a positive limit the least count of `limit`-sized pages holding `total`; for a negative one the non-positive `p` with `p * limit <= total < (p - 1) * limit` |
| AdminService.SkipOf | backend/internal/api/services/admin.service.js:16 | page 1 skips nothing; for a positive page and limit the skip is non-negative and ends one limit before `page * limit`; with a positive limit a page below 1 gives a negative skip; with a negative limit a page above 1 gives a negative skip and a page below 1 a positive one |
| AdminService.PageStartsInsideIff | backend/internal/api/services/admin.service.js:14-34 | a positive page starts inside the matching records iff it is at most `pages` |
| AdminService.StatisticsAddUp | backend/internal/api/services/admin.service.js:137-140 | active plus inactive users equals total users, and users plus admins equals all accounts |
| AdminService.Count | backend/internal/api/services/admin.service.js:137-140 | a count never exceeds the number of accounts |
| AdminService.AdminService.GetAllUsers | backend/internal/api/services/admin.service.js:6-41 | a store failure or a negative skip is FETCH_ERROR; otherwise the page holds only role `user` accounts that match the `isActive` filter, newest first from `skip`, at most `abs(limit)` of them; `total` counts every match and `pages = ceil(total / limit)` |
| AdminService.AdminService.GetUserById | backend/internal/api/services/admin.service.js:43-55 | returns the account's password-free view, 404 USER_NOT_FOUND for a missing id, 500 FETCH_ERROR when the store fails |
| AdminService.AdminService.UpdateUser | backend/internal/api/services/admin.service.js:57-75 | patches exactly that record and returns it; a missing id is 404; a store failure or an email another account holds is 500 UPDATE_ERROR and changes nothing |
| AdminService.AdminService.DeleteUser | backend/internal/api/services/admin.service.js:77-91 | removes exactly that record and answers `User deleted successfully` with the id; a missing id is 404; a store failure is DELETE_ERROR |
| AdminService.AdminService.SetActive | backend/internal/api/services/admin.service.js:93-133 | sets `isActive` on exactly the target record; a second call with the same flag changes nothing |
| AdminService.AdminService.DeactivateUser | backend/internal/api/services/admin.service.js:93-112 | clears `isActive` on exactly the target, returns it inactive, is idempotent, and is 404 / `Failed to deactivate user` UPDATE_ERROR otherwise |
| AdminService.AdminService.ActivateUser | backend/internal/api/services/admin.service.js:114-133 | sets `isActive` on exactly the target, returns it active, is idempotent, and is 404 / `Failed to activate user` UPDATE_ERROR otherwise |
| AdminService.AdminService.GetStatistics | backend/internal/api/services/admin.service.js:135-170 | the four counts by role and activity; active plus inactive equals total users, and users plus admins equals all accounts; a failure is FETCH_ERROR |
| UserService.UserService.FindView | backend/internal/api/services/user.service.js:8-17 | the shared lookup: the view, 404 for a missing id, or the given failure |
| UserService.UserService.GetUserById | backend/internal/api/services/user.service.js:6-18 | the account's view without its password; 404 USER_NOT_FOUND for a missing id; 500 FETCH_ERROR on store failure |
| UserService.UserService.GetUserProfile | backend/internal/api/services/user.service.js:56-68 | as getUserById, with `Failed to fetch profile` on store failure |
| UserService.UserService.UpdateUser | backend/internal/api/services/user.service.js:20-38 | applies the validated patch to exactly that record and returns it with role and activity unchanged; 404 for a missing id; UPDATE_ERROR with nothing changed on store failure or a taken email |
| UserService.UserService.DeleteUser | backend/internal/api/services/user.service.js:40-54 | removes exactly that record; 404 for a missing id; DELETE_ERROR on store failure |
| UserService.DeleteThenGet | backend/internal/api/services/user.service.js:6-54 | after deleteUser, a getUserById for the same id is 404, and the delete succeeded iff the account existed |
| AppRoutes.ProtectedRoute | frontend/src/routes/AppRoutes.jsx:28-45 | spinner iff loading; outlet iff loaded and signed in; a signed-out visitor goes to `/admin/login` iff the path starts with `/admin`, else to `/login` |
| AppRoutes.AdminRoute | frontend/src/routes/AppRoutes.jsx:48-68 | spinner iff loading; outlet iff an admin; nobody goes to `/admin/login`, a non-admin to `/dashboard` |
| AppRoutes.UserRoute | frontend/src/routes/AppRoutes.jsx:71-91 | spinner iff loading; outlet iff signed in and not admin (any other role); nobody goes to `/login`, an admin to `/admin/dashboard` |
| AppRoutes.PublicRoute | frontend/src/routes/AppRoutes.jsx:94-107 | never a spinner; outlet iff signed out; an admin goes to `/admin/dashboard`, anyone else signed in to `/dashboard` |
| AppRoutes.Resolve | frontend/src/routes/AppRoutes.jsx:113-160 | nested guards render the page iff every guard on the path renders its outlet |
| AppRoutes.StripTrailingSlashesSpec | frontend/src/routes/AppRoutes.jsx:115-158 | dropping trailing slashes leaves a prefix of the path that does not end in `/`, and only slashes were dropped |
| AppRoutes.GuardsFor | frontend/src/routes/AppRoutes.jsx:115-158 | the guards are none, PublicRoute, or ProtectedRoute over AdminRoute or UserRoute, chosen by which list of route paths the matched path is in |
| AppRoutes.RoutePathIgnoresSlashAndCase | frontend/src/routes/AppRoutes.jsx:115-158 | the matched path is the same with a slash appended or with the path lowercased |
| AppRoutes.GuardsIgnoreSlashAndCase | frontend/src/routes/AppRoutes.jsx:115-158 | a path is guarded the same with a slash appended or lowercased |
| AppRoutes.VisitAdmits | frontend/src/routes/AppRoutes.jsx:115-158 | what `Visit` renders: a public page renders iff signed out; a dashboard page shows the spinner while loading, then renders iff an admin (admin pages) or a signed-in non-admin (user pages); any other page renders |
| AppRoutes.GuardRedirects | frontend/src/routes/AppRoutes.jsx:59-100 | a route-table guard chain redirects signed-out visitors to a login page, admins to `/admin/dashboard` and other signed-in users to `/dashboard` |
| AppRoutes.SignedOutGoesToLogin | frontend/src/routes/AppRoutes.jsx:39-42 | a signed-out visitor of a dashboard page goes to `/admin/login` iff the typed path starts with `/admin`, else to `/login`; a user-dashboard page always leads to `/login` |
| AppRoutes.ExactlyOneAdmits | frontend/src/routes/AppRoutes.jsx:63-86 | for a signed-in user, exactly one of AdminRoute and UserRoute admits |
| AppRoutes.RedirectsSettle | frontend/src/routes/AppRoutes.jsx:59-153 | once loaded, every redirect the guards issue leads to a page that renders for the same user: there are no redirect loops |
| AppRoutes.LoginLandsOnAdmittingPage | frontend/src/contexts/AuthContext.jsx:62-84 | the landing page a successful login navigates to renders for the user it signed in |
| AdminRouteGuard.AdminRoute | frontend/src/routes/AdminRoute.jsx:4-14 | nothing iff loading; children iff authenticated and admin; every redirect goes to `/admin/login` |
| AdminRouteGuard.DiffersFromAppRoutesGuard | frontend/src/routes/AdminRoute.jsx:9-11 | both admin guards admit exactly the admins, but a signed-in non-admin goes to `/admin/login` here and to `/dashboard` in AppRoutes |
| AuthContext.FlagsConsistent | frontend/src/contexts/AuthContext.jsx:118-120 | `isAdmin` and `isUser` imply `isAuthenticated`, and they never hold together |
| AuthContext.LoginPath | frontend/src/contexts/AuthContext.jsx:50-53 | login posts to `auth/admin/login` iff the role argument is `admin` |
| AuthContext.Normalize | frontend/src/contexts/AuthContext.jsx:62-72 | the saved role is the lowercased role; `redirectUrl` is `/admin/dashboard` iff that role is `admin`, else `/dashboard`; the token, name and email are kept; the id is `_id`, or `id` when `_id` is absent |
| AuthContext.FailureMessage | frontend/src/contexts/AuthContext.jsx:87-90 | the error is the answer's `data.message`, else the request error's message, else `Login failed`; it is never empty |
| AuthContext.BearerHeaderExtracts | frontend/src/contexts/AuthContext.jsx:76 | the Authorization header the client sets is one `extractToken` accepts, and it yields the token back |
| AuthContext.Restore | frontend/src/contexts/AuthContext.jsx:17-40 | the session entry is preferred over the local one; nothing truthy in either storage changes nothing; a saved user found first becomes the user with both storages kept, sets the header to its bearer token and keeps the old header when its token is empty; an unparsable entry found first clears both storages and changes nothing else |
| AuthContext.RestoreIdempotent | frontend/src/contexts/AuthContext.jsx:17-40 | restoring twice is restoring once, so a restored login survives every later reload |
| AuthContext.RestoreDiscardsGarbage | frontend/src/contexts/AuthContext.jsx:34-36 | an unparsable entry clears both storages and leaves the user signed out |
| AuthContext.SessionShadowsLocal | frontend/src/contexts/AuthContext.jsx:18-19 | a user in sessionStorage wins over one in localStorage |
| AuthContext.AuthProvider.RestoreOnLoad | frontend/src/contexts/AuthContext.jsx:17-40 | the provider's state after the mount effect is `Restore` of its state before, and `loading` is false |
| AuthContext.AuthProvider.Login | frontend/src/contexts/AuthContext.jsx:45-97 | posts to the role's endpoint. Succeeds iff the answer has a user and a token. Success sets the user, the header, exactly one storage by `rememberMe` and the landing page. Failure changes only `error`: `Invalid login response` or the request's message. `loading` ends false |
| AuthContext.AuthProvider.Logout | frontend/src/contexts/AuthContext.jsx:102-114 | whatever the backend does, the user, both storages and the header are cleared and the page moves to `/login` |
| AuthContext.SessionLoginRestores | frontend/src/contexts/AuthContext.jsx:78-82 | after a login without "remember me", a refresh restores the same user and header |
| AuthContext.RememberedLoginRestores | frontend/src/contexts/AuthContext.jsx:78-82 | a remembered login is restored only when sessionStorage holds no user; otherwise the older session user wins |
| AuthContext.LogoutIsFinal | frontend/src/contexts/AuthContext.jsx:108-110 | after logout a refresh restores nobody |

## Left out

- Password hashing and `comparePassword` live in the User model, which is not part of this model. They are the uninterpreted `Hasher` functions.
- Jwt.VerifyToken: a token always carries an expiry. jsonwebtoken accepts a token without `exp` forever, but tokens this backend generates always carry one. The verified result is the signed `Claims` only; the decoded object that becomes `req.user` also carries `iat` and `exp`.
- JWT signing, base64 and signatures are not modelled. A token is the record jsonwebtoken would decode. `decode` stands for parsing a client's string.
- Joi's email-format check is the `isEmail` parameter. Joi's other internals are not reimplemented.
- Validation.Validate: a body is a sequence of entries, so a body with a repeated key is admitted. `Lookup` takes the first entry, whereas `JSON.parse` keeps the last. Unknown keys are reported in the body's order; Joi walks `Object.keys`, which lists integer-like keys first.
- Route matching: React Router's percent-decoding of the path, doubled slashes and the `*` route's element are not modelled. Only ASCII letters are folded, which for these all-ASCII route paths is what a case-insensitive match does.
- Validation.Validate: the violation order and labels follow Joi's documented behaviour for these schemas, not a reimplementation of Joi.
- Text.ToLower: only ASCII letters are lowercased. JavaScript's `toLowerCase` also maps non-ASCII letters.
- AuthService.AuthService.Signup: requires an already normalised email. The auth routes always run `validate` first. Concurrent signups racing past the `findOne` check are not modelled.
- AuthService.AuthService.Login: `lastLogin` is `now` and `loginCount` is a flat field. In the source it is `metadata.loginCount`.
- Users.UserStore.Find: ties in `createdAt` may come in any order. MongoDB's tie order is unspecified.
- Users ids are natural numbers, not ObjectId strings. An id that is not a valid ObjectId makes the store call raise, which the fault flag covers.
- MongoDB I/O, atomic updates and concurrent requests are not modelled. The fault flag only says whether a store call raises.
- AdminService.AdminService.GetAllUsers: `page` and `limit` are integers, with 0 for a falsy value. The route turns a non-numeric query value into the default first.
- AdminService.AdminService.UpdateUser: the patch covers `name`, `email`, `role` and `isActive` only. Other body fields are not modelled, for example a `password`, which `findByIdAndUpdate` would store unhashed. Schema validators other than the unique email index are covered only by the fault flag.
- AdminService.AdminService.GetStatistics: the mock growth figures, revenue, tickets, sessions and the timestamp are constants. They are not modelled.
- The admin service relies on `authMiddleware(true)` at every admin route. That route glue is not modelled.
- The logger writes to the console and files. It is not modelled.
- AuthContext.AuthProvider.Login: `JSON.stringify` and `JSON.parse` of a saved user are taken to round-trip. Stored JSON values other than a user object are not modelled. Navigation is the last target only.
- The frontend network wrappers (`adminService.js`, `axios.js`) are not modelled. Their token lookup prefers localStorage, the reverse of `AuthContext`'s restore.
- `AdminLogin.jsx`, the spinner markup and the other pages are UI. They are not modelled.
