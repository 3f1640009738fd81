# safepro admin panel — a Dafny model of its authentication core

This project models the server side of the safepro admin panel, a Next.js application. The model covers:

- the request gates `apiHandlerWithAuth` and `apiHandlerWithAdminAuth`. They take an access token from the
  `accessToken` cookie or a `Bearer` header, refuse it when it is in the revocation ledger or fails
  verification, and hand an authenticated request to the route.
- the error boundaries `apiHandler` (two variants) and `ErrorResponse`, and the 400 body that
  `ZodErrorResponse` builds from a list of zod issues.
- the routes `auth/login`, `user/login`, `api/login`, `auth/logout` and `user/signup`.
- the page middleware that redirects between `/login` and `/`.
- every zod schema of the core: name, email, both password schemas, signin, signup, the user update
  schema, and the VPS server and group schemas.
- the `users` store slice, and `getNameFallback`.

Pure code is modelled as functions and lemmas. State that the source changes is modelled with classes:
- the cookie jar (`Store.CookieJar`);
- the revocation ledger, i.e. the `token` table (`Store.TokenTable`);
- the user table (`Store.UserTable`);
- the slice state (`UsersSlice.UsersState`).

Each route is a pure `…Spec` function that returns the response and the new state. The route's method
is proved to produce exactly that. The lemmas about each route are stated on the `…Spec` function.

Outside collaborators are parameters:
- `jwt.verify` and `jwt.sign` are `verify: string -> Verification` and `sign: Claims -> string`.
- bcrypt's `compare` and `hash` are `check` and `hash`.
- `z.email()` is `emailFormat`.
- the clock is `now`, in milliseconds.

Where a property needs them to agree, it says so in its own `requires`, for example `RoundTrips(verify, sign(c), c)`.

Three behaviours of the code are worth stating up front:
- A token that fails `jwt.verify` makes the gate throw, so the answer is a 500 carrying the library's
  message. The cookie is kept.
- The gate looks the token up in the revocation ledger before it verifies the signature.
- `api/login` answers an unknown e-mail with 401. `user/login` and `auth/login` answer it with 404.

## Model

| member | source | states |
|---|---|---|
| ApiHandlers.ChosenToken | src/helpers/apiHandlers.ts:36-46 | a non-empty cookie wins over the header; with no cookie the `Bearer ` prefix is dropped from the header; no token is chosen exactly when there is neither a cookie value nor a header |
| ApiHandlers.BearerToken | src/helpers/apiHandlers.ts:45-46 | a `Bearer x` header alone yields the token `x` |
| ApiHandlers.CheckToken | src/helpers/apiHandlers.ts:48-78 | a revoked token gets 401 "token is revoked" and the cookie cleared; an unrevoked token that fails verification gets 500 with the verifier's message and the cookie kept; a verified payload without a non-empty e-mail gets 401 "token expired or invalid" and the cookie cleared; on admin routes a verified token with an e-mail but without the role "admin" gets 403 "Request Forbidden" and the cookie kept; the gate admits exactly when none of these applies; an admitted request carries the token, the claimed id and e-mail and the expiry in ms |
| ApiHandlers.Admit | src/helpers/apiHandlers.ts:74-78 | the authenticated request carries the payload's id and e-mail, the token, and `exp * 1000` as expiry |
| ApiHandlers.UserGate | src/helpers/apiHandlers.ts:32-78 | no cookie and no `Bearer ` header gives 401 "not logged in"; otherwise, once a token is chosen, every answer is `CheckToken` on that token; an admitted request used the chosen token, which is not revoked |
| ApiHandlers.AdminGate | src/helpers/apiHandlers.ts:98-145 | only the cookie is read: no cookie value gives 401; with one, every answer is `CheckToken` with the admin role required; an admitted request holds the cookie's token, unrevoked, verified, with role "admin" |
| ApiHandlers.NoCredentialsNoLookup | src/helpers/apiHandlers.ts:36-43 | without credentials the answer is 401 whatever the ledger and the verifier hold |
| ApiHandlers.RevokedBeforeVerification | src/helpers/apiHandlers.ts:48-58 | a revoked token is refused with 401 and a cleared cookie before verification matters |
| ApiHandlers.CookieOverridesHeader | src/helpers/apiHandlers.ts:45-46 | with a non-empty cookie the Authorization header has no effect |
| ApiHandlers.AdminImpliesUser | src/helpers/apiHandlers.ts:98-145 | whatever the admin gate admits, the user gate admits with the same request |
| ApiHandlers.AdminIgnoresBearer | src/helpers/apiHandlers.ts:99-106 | a valid bearer token opens the user gate but not the admin gate, which answers 401 |
| ApiHandlers.RolelessTokenForbidden | src/helpers/apiHandlers.ts:134-139 | a valid, unrevoked token without a role gets 403 "Request Forbidden" and the cookie is kept |
| ApiHandlers.RunUserGate | src/helpers/apiHandlers.ts:32-78 | the gate's decision is `UserGate` on the jar and ledger; the cookie is deleted exactly when the decision says so |
| ApiHandlers.RunAdminGate | src/helpers/apiHandlers.ts:98-145 | the decision is `AdminGate`; the cookie is deleted exactly when the decision says so |
| ApiHandlers.Screen | src/helpers/apiHandlers.ts:48-72 | the decision is `CheckToken`; the cookie is deleted exactly on the revoked and e-mail-less cases |
| ApiHandlers.ApiHandlerWithAuth | src/helpers/apiHandlers.ts:26-90 | the gate's response, or the wrapped handler's outcome passed through the catch boundary |
| ApiHandlers.ApiHandlerWithAdminAuth | src/helpers/apiHandlers.ts:92-157 | the same, behind the admin gate |
| ApiHandlers.CatchResponse | src/helpers/apiHandlers.ts:15-23 | a zod error becomes the 400 validation response; anything else 500 `{success:false, message}` with the error's message or "Internal server error" |
| ApiHandlers.ApiHandler | src/helpers/apiHandlers.ts:8-24 | a returned response passes unchanged; a thrown error goes through `CatchResponse` |
| LegacyApiHandler.CatchResponse | src/helpers/apiHandler.ts:8-16 | as above, but the 500 body has no `success` field |
| LegacyApiHandler.ApiHandler | src/helpers/apiHandler.ts:4-17 | a returned response passes unchanged; a thrown error goes through the legacy catch |
| ErrorResponse.ErrorResponse | src/helpers/error-response.ts:6-36 | zod errors give the 400 response; a Prisma error answers 409 exactly for P2002, with the body `{success:false, message}` built from `meta.target`, others 500 with the error's message; an Axios error answers with its status (200 when it has none) and with `response.data.message` when it has a response, its own message otherwise; anything else 500 |
| ErrorResponse.ReduceKeepsLastKey | src/helpers/error-response.ts:13-17 | the `reduce` result depends only on the last key and on whether anything preceded it |
| ErrorResponse.UniqueMessageShapes | src/helpers/error-response.ts:13-18 | the P2002 message is "" for no target, " k must be unique" for one key, ", last must be unique" for several |
| ErrorResponse.UniqueMessageIgnoresEarlierKeys | src/helpers/error-response.ts:14-17 | changing the keys before the last does not change the message |
| ErrorResponse.TwoKeysAsWritten | src/helpers/error-response.ts:11-20 | the target `["email","slug"]` yields ", slug must be unique", and that is the message of the 409 answer |
| ErrorResponse.ReduceIntendedJoins | src/helpers/error-response.ts:14-17 | the corrected reduce appends one phrase per key, comma-separated |
| ErrorResponse.UniqueMessageIntendedNamesEveryKey | src/helpers/error-response.ts:14-17 | the corrected message names every key in order |
| ZodErrors.FormatZodErrors | src/helpers/zod-error-response.ts:3-18 | the loop that fills `errorMap` yields `Grouped(issues)`: one entry per first path segment, in first-appearance order, with that key's messages in issue order |
| ZodErrors.GroupedCountsEveryIssue | src/helpers/zod-error-response.ts:3-18 | the grouped entries hold exactly as many messages as there were issues |
| ZodErrors.GroupedPlacesEachIssue | src/helpers/zod-error-response.ts:6-12 | every issue's message appears under its key, and no key has two entries |
| ZodErrors.CategoriesPartition | src/helpers/zod-error-response.ts:26-57 | the invalid-type, other and unrecognized-key categories split the issues without loss or overlap |
| ZodErrors.RequiredKeysNamed | src/helpers/zod-error-response.ts:26-36 | the key of every invalid-type issue is named in the "required" part |
| ZodErrors.ZodErrorResponse | src/helpers/zod-error-response.ts:20-81 | status 400; message = the non-empty parts joined by " and "; errors = required entries, then invalid entries, then one "k is not allowed" entry per extra key |
| Logout.Revoke | src/app/api/auth/logout/route.ts:6-18 | the cookie is deleted, exactly one record (token, expiry) is appended to the ledger, the answer is 200 "User logged out successfully" |
| Logout.Logout | src/app/api/auth/logout/route.ts:6-18 | behind the user gate: on admission the token is revoked as above; otherwise the gate's answer, and the ledger is unchanged |
| Logout.LogoutTwice | src/app/api/auth/logout/route.ts:6-18 | logging out twice with the same token: 200, then 401 "token is revoked", with one record added |
| AuthLogin.AuthLoginSpec | src/app/api/auth/login/route.ts:14-113 | keys of the user table unchanged; only the signed-in account can change, and only after a correct password; the cookie changes only on 200, to the session cookie of the returned token |
| AuthLogin.AuthLogin | src/app/api/auth/login/route.ts:14-113 | the response, the user table and the cookie are those of `AuthLoginSpec` |
| AuthLogin.Admitted | src/app/api/auth/login/route.ts:43-112 | past the password and grace checks: only the signed-in account can change and its e-mail is kept; a 200 needs a verified e-mail, sets the session cookie of its token and returns that account's summary |
| AuthLogin.RecordLogin | src/app/api/auth/login/route.ts:43-112 | the handler's steps after the grace check yield `Admitted`'s response, user table and cookie |
| AuthLogin.PasswordMatched | src/app/api/auth/login/route.ts:17-69 | a parsed body whose password matches, within the grace window, leads to `Admitted` for that e-mail |
| AuthLogin.UnknownEmail | src/app/api/auth/login/route.ts:19-29 | an unknown e-mail gives 404 "User not found" and changes nothing |
| AuthLogin.WrongPassword | src/app/api/auth/login/route.ts:31-41 | a wrong password gives 401 "Invalid Credentials" and changes nothing |
| Store.SessionCookie | src/app/api/auth/login/route.ts:95-102 | the session cookie holds the token, is httpOnly, secure, strict, lives 86400 s and covers "/" |
| AuthLogin.GraceWindow | src/app/api/auth/login/route.ts:43-69 | deleted more than 3 days ago: 410 and nothing changes; within 3 days: `deletedAt` is cleared, and an unverified account then gets 403 with only that change kept |
| AuthLogin.RestoredOnLogin | src/app/api/auth/login/route.ts:55-69 | a deleted account within the window has `deletedAt` cleared, and if unverified is refused with 403 after that write |
| AuthLogin.UnverifiedRefused | src/app/api/auth/login/route.ts:71-79 | a live unverified account gets 403 and nothing changes |
| AuthLogin.VerifiedAdmitted | src/app/api/auth/login/route.ts:81-112 | a verified account gets 200 with its summary, `deletedAt` cleared, `lastLoginAt := now` and the cookie of a token over id and e-mail |
| AuthLogin.Success | src/app/api/auth/login/route.ts:81-112 | success: 200 with `{id,name,slug,email}` and a token signed over id and e-mail, `lastLoginAt := now`, `deletedAt` cleared, and the session cookie (1 day, httpOnly, secure, strict, "/") |
| AuthLogin.SuccessRequires | src/app/api/auth/login/route.ts:17-79 | a 200 implies a parsed body, a known e-mail, a correct password, a grace window not passed and a verified e-mail |
| AuthLogin.TokenNeverAdmin | src/app/api/auth/login/route.ts:87-93 | the token this route issues carries no role, so it never opens the admin gate |
| UserLogin.UserLoginSpec | src/app/api/user/login/route.ts:14-72 | the cookie changes only on 200, to the session cookie of the returned token |
| UserLogin.UserLogin | src/app/api/user/login/route.ts:14-72 | the response and the cookie are those of `UserLoginSpec`; the user table is only read |
| UserLogin.Authenticated | src/app/api/user/login/route.ts:19-71 | 200 exactly when the e-mail is known and the password matches; the cookie changes only then, to the session cookie of the returned token |
| UserLogin.Authenticate | src/app/api/user/login/route.ts:19-71 | the handler's steps after validation yield `Authenticated`'s response and cookie |
| UserLogin.PasswordAdmits | src/app/api/user/login/route.ts:30-71 | a known e-mail with the right password gets 200 with that account's profile and a token over its role claims, set as the session cookie |
| UserLogin.CredentialsOnly | src/app/api/user/login/route.ts:19-71 | 404 for an unknown e-mail, 401 for a wrong password, otherwise 200 with the profile and a token signed over id, e-mail and role; deletion and verification are not consulted |
| UserLogin.RoleClaims | src/app/api/user/login/route.ts:37-43 | the token's claims are the account's id, e-mail and role name |
| UserLogin.AuthLoginImpliesUserLogin | src/app/api/user/login/route.ts:19-35 | whoever signs in on `auth/login` also signs in here, as the same account |
| UserLogin.AdminTokenOpensAdminGate | src/app/api/user/login/route.ts:37-52 | the cookie set here opens the admin gate for an admin account and never for a user account |
| UserLogin.RoleTokenAtAdminGate | src/app/api/user/login/route.ts:37-43 | a token over a user's role claims never opens the admin gate; over an admin's, unrevoked and non-empty, it does |
| Accounts.ProfileOf | src/app/api/user/login/route.ts:58-67 | the returned profile shows the role only when it is "admin" |
| ApiLogin.ApiLogin | src/app/api/login/route.ts:6-46 | a 200 answer carries the profile and no token |
| ApiLogin.AgreesWithUserLogin | src/app/api/login/route.ts:6-46 | succeeds exactly when `user/login` does, with the same profile; an unknown e-mail is 401 here instead of 404 |
| Signup.SignupSpec | src/app/api/user/signup/route.ts:7-36 | a taken e-mail gives 409 and no change; a 201 inserts exactly the new account under its e-mail, with `hash` applied to the already-hashed schema output, and returns it without the password |
| Signup.Signup | src/app/api/user/signup/route.ts:7-36 | the response and the user table are those of `SignupSpec` |
| Signup.Register | src/app/api/user/signup/route.ts:13-35 | 201 exactly when the e-mail is free; a taken e-mail gives 409 and no change; otherwise exactly the new account is inserted under its e-mail and returned without the password |
| Signup.Insert | src/app/api/user/signup/route.ts:13-35 | the handler's steps after hashing yield `Register`'s response and user table |
| Signup.NewAccount | src/app/api/user/signup/route.ts:25-30 | the stored account has the parsed name, e-mail and password, with the database-filled columns taken from `defaults` |
| Signup.StoredTwiceHashed | src/app/api/user/signup/route.ts:9-11 | the stored password is `hash(hash(p))` |
| Signup.SignupThenLoginRefused | src/app/api/user/signup/route.ts:9-11 | for any injective non-identity hash, the new account's own password is refused by `user/login` |
| Signup.SignupSpecIntended | src/app/api/user/signup/route.ts:7-36 | the corrected route stores the schema's single hash |
| Signup.SignupThenLoginAccepted | src/app/api/user/signup/route.ts:9-11 | with the corrected route, the new account signs in with its password |
| Middleware.Middleware | src/middleware.ts:4-20 | the request passes exactly when "on /login" and "has the cookie" differ; otherwise redirect to "/" with a cookie, to "/login" without; passing requests carry `x-pathname` |
| Middleware.OnlyPresenceMatters | src/middleware.ts:7-15 | only the presence of the cookie matters, not its value |
| Middleware.NoSelfRedirect | src/middleware.ts:9-15 | no redirect targets the page requested |
| Middleware.RedirectSettles | src/middleware.ts:9-19 | following a redirect with the same cookie reaches a page that passes |
| Utils.GetNameFallback | src/lib/utils.ts:8-22 | the empty name gives "" |
| Utils.CharAt | src/lib/utils.ts:14-18 | indexing inside the string gives the character, outside it the text "undefined" |
| Utils.FinalReturnUnreachable | src/lib/utils.ts:11-21 | the split always has at least one word, so the last `return ""` is never reached |
| Utils.BlankNameAsWritten | src/lib/utils.ts:9-18 | a whitespace-only name gives "UNDEFINEDUNDEFINED"; the empty name gives "" |
| Utils.NameInitials | src/lib/utils.ts:8-22 | the corrected function: a blank name gives "" |
| Utils.InitialsOfNonBlank | src/lib/utils.ts:11-18 | for a non-blank name: first letters of the first two words, or the first and last letter of a single word, upper-cased; 1 or 2 characters, none a space |
| Utils.PaddingIgnored | src/lib/utils.ts:11 | surrounding whitespace does not change the initials |
| Utils.RunLengthIgnored | src/lib/utils.ts:11 | the length of the whitespace run between words does not matter |
| Zod.StrictIssues | src/schemas/signinSchema.ts:10 | a strict object reports one unrecognized-keys issue naming exactly the unknown keys, or nothing when every key is known |
| Json.UnknownKeyListed | src/schemas/signinSchema.ts:10 | every key outside the shape is among the unknown keys a strict object reports |
| ZodSchemas.NameChecksExact | src/schemas/zod-schemas.ts:16-36 | the seven name checks all pass exactly on the well-formed names |
| ZodSchemas.NamesHaveNoDigits | src/schemas/zod-schemas.ts:23-26 | a well-formed name contains no digit |
| ZodSchemas.ParseName | src/schemas/zod-schemas.ts:11-36 | accepts exactly the strings whose trimmed form is well formed, returning it; a missing value is "Name is required", another type "Name must be a string" |
| ZodSchemas.ParseEmail | src/schemas/zod-schemas.ts:3-9 | accepts exactly the strings whose trimmed form passes the e-mail format, returning it trimmed |
| ZodSchemas.NamePaddingIgnored | src/schemas/zod-schemas.ts:16 | surrounding whitespace does not change the parse of a name |
| ZodSchemas.EmailPaddingIgnored | src/schemas/zod-schemas.ts:4 | surrounding whitespace does not change the parse of an e-mail |
| PasswordSchema.ChoosePasswordExact | src/schemas/password-schema.ts:5-31 | the eight checks all pass exactly on 8–128 characters, not padded, with a lower-case letter, an upper-case letter, a digit and a special character |
| PasswordSchema.ChecksPassExactly | src/schemas/password-schema.ts:5-31 | no issue exactly when every rule holds, on the untrimmed string |
| PasswordSchema.CommonRuleVacuous | src/schemas/password-schema.ts:4 | the common-password rule never fires, since the list is empty |
| PasswordSchema.InteriorSpaceIsSpecial | src/schemas/password-schema.ts:26 | an interior space counts as a special character |
| PasswordSchema.ParseChoosePassword | src/schemas/password-schema.ts:5-32 | accepts exactly the strong passwords and outputs their hash; type errors say "required" or "must be a string" |
| PasswordSchema.ParsePassword | src/schemas/password-schema.ts:34-37 | any string passes unchanged; otherwise exactly one type issue |
| SigninSchema.ParseSignin | src/schemas/signinSchema.ts:5-10 | accepts exactly objects with a valid e-mail, a string password and no other key; outputs the trimmed e-mail and the password as given |
| SigninSchema.MissingPasswordReported | src/schemas/signinSchema.ts:8 | a body without password reports "Password is required" at ["password"] |
| SigninSchema.ExtraKeyRejected | src/schemas/signinSchema.ts:10 | any unknown key is refused and named in the last issue |
| SigninSchema.SigninBodyParsed | src/schemas/signinSchema.ts:5-10 | `{email, password}` with a valid e-mail parses to the trimmed e-mail and the password |
| SigninSchema.CredentialsParsed | src/schemas/signinSchema.ts:5-10 | any body with a valid e-mail string, a string password and only known keys parses to the trimmed e-mail and the password |
| SignupSchema.ParseSignup | src/schemas/signupSchema.ts:5-11 | accepts exactly a well-formed name, a valid e-mail, a strong password and no other key; outputs the trimmed name and e-mail and the hashed password |
| SignupSchema.SignupBodyParsed | src/schemas/signupSchema.ts:5-11 | a successfully parsed `{name, email, password}` holds the trimmed name and e-mail and `hash(password)` |
| UpdateUserSchema.ParseRole | src/schemas/update-user-schema.ts:7-11 | only "user" or "admin", or absent |
| UpdateUserSchema.ParseTrue | src/schemas/update-user-schema.ts:13-15 | only `true`, or absent; `false` is refused |
| UpdateUserSchema.ParseBanned | src/schemas/update-user-schema.ts:17 | a boolean, or absent |
| UpdateUserSchema.ParseBanReason | src/schemas/update-user-schema.ts:19-24 | null, absent, or a string that is not blank, output trimmed |
| UpdateUserSchema.ParseExternalId | src/schemas/update-user-schema.ts:26-37 | null, absent, or any string, untrimmed |
| UpdateUserSchema.ParseOptionalName | src/schemas/update-user-schema.ts:6 | absent, or a name the name schema accepts |
| UpdateUserSchema.ParseUpdateUser | src/schemas/update-user-schema.ts:4-53 | accepted exactly when every field passes, every key is known, and with `restore` every other field is absent or null; the field issues come first, then the unknown-keys issue; when none of these issues is a wrong type, a wrong literal or an unknown key, a broken restore rule adds its custom issue at ["restore"] after them, otherwise the refinement adds nothing |
| UpdateUserSchema.NoRestoreNoRefinement | src/schemas/update-user-schema.ts:43 | without `restore` acceptance is the field and key rules alone |
| UpdateUserSchema.RestoreWithNull | src/schemas/update-user-schema.ts:41-47 | `restore` with a null field is accepted |
| UpdateUserSchema.RestoreWithValueRefused | src/schemas/update-user-schema.ts:41-52 | `restore` with another set field is refused with "No other fields allowed when restore is true" at ["restore"] |
| UpdateUserSchema.AcceptedWhenRefinementHolds | src/schemas/update-user-schema.ts:41-52 | fields that pass, known keys and a satisfied restore rule mean acceptance |
| UpdateUserSchema.RefusedWhenRefinementFails | src/schemas/update-user-schema.ts:41-52 | fields that pass and known keys with a broken restore rule give exactly the one custom issue at ["restore"] |
| UpdateUserSchema.ReportedAfterContinuable | src/schemas/update-user-schema.ts:41-53 | known keys and field issues that are all continuable (length, pattern, refinement failures): a broken restore rule reports its custom issue after them |
| UpdateUserSchema.ShortNameWithRestore | src/schemas/update-user-schema.ts:4-52 | `{"restore": true, "name": "ab"}` gives the name's "at least 3 characters" issue, then the restore issue |
| UpdateUserSchema.StringsKeptTrimmed | src/schemas/update-user-schema.ts:6-24 | a string name or ban reason reaches the refinement trimmed, whether or not its later checks pass |
| VpsServerSchemas.IPv4Length | src/schemas/vps-server-schemas.ts:21-40 | an accepted address has 7–15 characters, so the length checks never fire on it |
| VpsServerSchemas.DottedQuadAccepted | src/schemas/vps-server-schemas.ts:26-37 | any four octets (1–3 digits, value at most 255, leading zeros allowed) joined by dots are accepted |
| VpsServerSchemas.DomainAccepted | src/schemas/vps-server-schemas.ts:50 | one or more labels of `[A-Za-z0-9-]` and a top level of two or more letters, joined by dots, form an accepted domain |
| VpsServerSchemas.ParseServerName | src/schemas/vps-server-schemas.ts:5-10 | absent, null, or a string of at most 255 characters after trimming |
| VpsServerSchemas.ParseUsername | src/schemas/vps-server-schemas.ts:11-20 | 1–255 characters after trimming; required on create, where missing reads "username is required"; optional on update; whatever create accepts, update accepts alike |
| VpsServerSchemas.IpIssues | src/schemas/vps-server-schemas.ts:23-40 | no issue exactly for an IPv4 address; the empty string reports both "IP Address is required" and "Invalid IPv4 address" |
| VpsServerSchemas.ParseIpAddress | src/schemas/vps-server-schemas.ts:21-40 | a string whose trimmed form is an IPv4 address; required on create, optional on update, never null |
| VpsServerSchemas.ParseSecret | src/schemas/vps-server-schemas.ts:41-42 | absent, null, or any string, output trimmed |
| VpsServerSchemas.ParsePort | src/schemas/vps-server-schemas.ts:43 | absent, or an integer from 1 to 65535; null is refused |
| VpsServerSchemas.ParseDomain | src/schemas/vps-server-schemas.ts:44-52 | absent, null, "" after trimming, or a domain name of at most 255 characters |
| VpsServerSchemas.ParseStatus | src/schemas/vps-server-schemas.ts:53 | absent or a boolean |
| VpsServerSchemas.ParseLimit | src/schemas/vps-server-schemas.ts:55-59 | a JSON body can only leave a bigint limit absent or null |
| VpsServerSchemas.ParseMetric | src/schemas/vps-server-schemas.ts:61-65 | absent, null, or a number from 0 (to 100 where bounded) |
| VpsServerSchemas.ParseServerFields | src/schemas/vps-server-schemas.ts:3-66 | succeeds exactly when every field passes; failure lists every field's issues under its key |
| VpsServerSchemas.ParseCreateServer | src/schemas/vps-server-schemas.ts:3-67 | accepted exactly when every field passes and every key is known |
| VpsServerSchemas.ParseUpdateServer | src/schemas/vps-server-schemas.ts:69-129 | accepted exactly when every field passes; unknown keys are ignored |
| VpsServerSchemas.CreateImpliesUpdate | src/schemas/vps-server-schemas.ts:3-129 | every body the create schema accepts the update schema accepts, with the same output |
| VpsServerSchemas.UpdateAcceptsEmptyBody | src/schemas/vps-server-schemas.ts:76-91 | the update schema accepts `{}` |
| VpsServerSchemas.CreateRejectsEmptyBody | src/schemas/vps-server-schemas.ts:11-25 | the create schema refuses `{}` with the username issue and then the ipAddress issue |
| VpsServerSchemas.EmptyBodyFieldIssues | src/schemas/vps-server-schemas.ts:5-65 | on `{}` the only field issues are "username is required" under username, then the type issue under ipAddress |
| VpsServerSchemas.OnlyRequiredFieldsReport | src/schemas/vps-server-schemas.ts:5-65 | when name and every later field pass, the field issues are those of username and then ipAddress |
| VpsServerSchemas.CreateReportsFieldIssues | src/schemas/vps-server-schemas.ts:3-67 | a body with only known keys whose fields fail is refused with the field issues alone |
| VpsServerSchemas.LaterIssues | src/schemas/vps-server-schemas.ts:41-65 | the fields after ipAddress report nothing exactly when each passes |
| VpsGroupsSchemas.ParseGroupName | src/schemas/vps-groups-schemas.ts:5-9 | 1–255 characters after trimming; required on create, optional on update |
| VpsGroupsSchemas.ParseDescription | src/schemas/vps-groups-schemas.ts:10-16 | absent, null, or 1–255 characters after trimming |
| VpsGroupsSchemas.ParseServers | src/schemas/vps-groups-schemas.ts:17 | absent, or an array of strings of at least one character each, kept untrimmed |
| VpsGroupsSchemas.ItemIssues | src/schemas/vps-groups-schemas.ts:17 | no issue exactly when every remaining item is a non-empty string |
| VpsGroupsSchemas.ParseGroup | src/schemas/vps-groups-schemas.ts:3-38 | accepted exactly when name, description and servers pass and every key is known |
| VpsGroupsSchemas.ParseCreateGroup | src/schemas/vps-groups-schemas.ts:3-19 | a body without name is refused, the name issue first |
| VpsGroupsSchemas.ParseUpdateGroup | src/schemas/vps-groups-schemas.ts:21-38 | a body without name is judged on description, servers and keys alone |
| VpsGroupsSchemas.CreateImpliesUpdate | src/schemas/vps-groups-schemas.ts:3-38 | every body the create schema accepts the update schema accepts, with the same output |
| UsersSlice.UsersState.constructor | src/store/users.slice.ts:13-21 | no users, page 1, page size 10, total 0, empty page cache, no fetched pages |
| UsersSlice.UsersState.SetUsers | src/store/users.slice.ts:27-29 | replaces the list; nothing else changes |
| UsersSlice.UsersState.SetCurrentPage | src/store/users.slice.ts:30-32 | replaces the current page; nothing else changes |
| UsersSlice.UsersState.SetPageSize | src/store/users.slice.ts:33-35 | replaces the page size; nothing else changes |
| UsersSlice.UsersState.SetTotal | src/store/users.slice.ts:36-38 | replaces the total; nothing else changes |
| UsersSlice.UsersState.SetPages | src/store/users.slice.ts:39-41 | replaces the page cache; nothing else changes |
| UsersSlice.UsersState.SetFetchedPages | src/store/users.slice.ts:42-44 | replaces the fetched-page list; nothing else changes |
| UsersSlice.UsersState.AddUser | src/store/users.slice.ts:45-47 | appends the account at the end; nothing else changes |
| UsersSlice.UsersState.FindIndex | src/store/users.slice.ts:49-51 | the loop returns the first position with the id, or -1 |
| UsersSlice.FirstMatch | src/store/users.slice.ts:49-51 | -1 exactly when no account has the id; otherwise the position of the first one |
| UsersSlice.UsersState.UpdateUser | src/store/users.slice.ts:48-55 | the list becomes `Updated(old list, account)`; nothing else changes |
| UsersSlice.UpdateReplacesFirstMatchOnly | src/store/users.slice.ts:48-55 | same length; the first matching position holds the new account, every other position is unchanged |
| UsersSlice.UpdateUnknownIdKeepsList | src/store/users.slice.ts:52-54 | an id not in the list leaves it unchanged |
| UsersSlice.UpdateThenFind | src/store/users.slice.ts:48-55 | afterwards the first account with the id is at the same position and is the new one |
| UsersSlice.FirstMatchAt | src/store/users.slice.ts:49-51 | a position holding the id with no earlier match is what `findIndex` finds |
| UsersSlice.UsersState.RemoveUser | src/store/users.slice.ts:56-58 | the list becomes `Without(old list, id)`; nothing else changes |
| UsersSlice.Without | src/store/users.slice.ts:57 | no kept account has the id |
| UsersSlice.WithoutKeepsListed | src/store/users.slice.ts:57 | every kept account comes from the list |
| UsersSlice.WithoutKeepsOthers | src/store/users.slice.ts:57 | every account with another id is kept |
| UsersSlice.WithoutAppend | src/store/users.slice.ts:57 | removal works piecewise over concatenation, so the kept accounts stay in order |
| UsersSlice.WithoutAbsentId | src/store/users.slice.ts:57 | a list without the id is unchanged |
| UsersSlice.AddThenRemove | src/store/users.slice.ts:45-58 | removing an account just added equals removing from the list before it |

## Left out

- Network, database and cookie I/O are modelled as state passed in. The following are not modelled:
  - database failures, and concurrent requests;
  - `req.json()` failing on a body that is not JSON;
  - Prisma's `@updatedAt` refresh, since `schema.prisma` is not part of this model.
- bcrypt's salt, cost and randomness are not modelled: `hash` is a function and `check` a predicate.
  The signup properties state the assumptions they need about the two.
- `jwt.verify`'s expiry clock and the `ms` expiry string are folded into `verify` and `sign`.
- `ApiHandlers.Admit`: a payload without `exp` gives an invalid `Date` in the source; the model needs `exp`.
- The message of the error Prisma throws on `findUnique({where: {accessToken: undefined}})` is a
  constant (`UndefinedTokenLookup`). This is the case of a cookie with an empty value and no header.
  The ORM's wording is not part of this model.
- Middleware: redirect targets are paths. Building the absolute URL from `req.url` is not modelled, and
  neither is the route matcher in `config`.
- Strings are sequences of characters. Trimming, `\s` and case mapping are ASCII-only; Unicode
  whitespace and case folding are not modelled.
- Integer-like object keys are not modelled. `Object.entries` would list such keys before the
  others in `formatZodErrors`; the model keeps first-appearance order.
- `z.email()` is the abstract predicate `emailFormat`. Its regular expression is not modelled.
- Default zod message texts ("Invalid input: expected …", "Too small: …") follow zod 4's wording but
  are not checked against the library.
- `VpsServerSchemas.ParsePort`: the extra issue zod adds for integers beyond 2^53 is not modelled. It
  happens only where the 65535 bound already fails.
- `VpsServerSchemas.ParseMetric`: numbers are reals. NaN and infinities cannot come from JSON.
- `UsersSlice.UsersState`: page numbers and counts are `int`. JavaScript numbers can also be
  fractional, which the reducers never rely on.
- `apiHandlers.ts` declares `apiHandler` twice in effect (`apiHandlers.ts` and `apiHandler.ts`);
  both are modelled (`ApiHandlers` and `LegacyApiHandler`).

## Findings

| source | as written | input that shows it | evidently intended | confidence | as-written member | corrected member |
|---|---|---|---|---|---|---|
| src/app/api/user/signup/route.ts:9-11 | the schema's `password` output is already a bcrypt hash (src/schemas/password-schema.ts:32), and the route hashes it again before storing | sign up with `Abcdef1!`, then sign in with `Abcdef1!` | store the schema's hash once, so the password signs in | high (not executed) | Signup.SignupThenLoginRefused | Signup.SignupThenLoginAccepted |
| src/lib/utils.ts:11-18 | for a whitespace-only name, `"".split(/\s+/)` is `[""]`, and the single-word branch indexes an empty word | `getNameFallback(" ")` returns "UNDEFINEDUNDEFINED" | return "" for a blank name | high (not executed) | Utils.BlankNameAsWritten | Utils.NameInitials |
| src/helpers/error-response.ts:13-17 | the `reduce` template drops `prev`, so only the last key survives | P2002 with target `["email","slug"]` gives ", slug must be unique" | " email must be unique, slug must be unique" | medium (not executed) | ErrorResponse.TwoKeysAsWritten | ErrorResponse.UniqueMessageIntendedNamesEveryKey |
