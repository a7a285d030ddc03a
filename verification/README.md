# taminotchi backend core in Dafny

This project models the core of the taminotchi NestJS backend and proves properties about it. Taminotchi is a
marketplace where clients post "elons" (requests), markets list products, and admins curate the catalogue. The
model covers these parts:

- **Phone registration with one-time codes** for clients and for markets, over a Redis-like store with expiring
  keys (`KeyValue`, `Otp`, `OtpFlow`, `ClientService`, `MarketService`).
  - A request stores a bcrypt digest of a six-digit code with zero attempts for 300 seconds.
  - A verification refuses a missing record, refuses once five attempts are used, and counts a wrong code while
    keeping the remaining lifetime.
  - A correct code leaves a marker that lives 600 seconds. For clients the marker is bound to the phone and a
    random token; for markets it is bound to the phone alone.
  - Completion consumes the marker only after the account row is saved.
- **Sign-in and tokens** (`AuthCommon`, `Token`, `Jwt`, `Crypto`, `Http`). Unknown, inactive and wrong-password
  accounts get the same refusal. Access and refresh tokens are told apart by their `type` claim. The refresh
  token goes into an http-only cookie.
- **The request pipeline**: the bearer-token guard (`AuthGuard`), the role guard (`RolesGuard`), the language
  middleware (`LanguageMiddleware`), the exception filter (`ExceptionFilter`), the response envelope and its
  bilingual message (`SuccessResponse`, `SuccessMessage`), pagination (`Pagination`) and the upload helpers
  (`Upload`, `UploadCleanup`).
- **The tables the services keep**, each a map from id to row inside a class whose methods update it:
  - the generic repository service (`BaseService`);
  - admins (`AdminService`);
  - categories (`CategoryService`) and sub-categories (`SupCategoryService`);
  - elons (`ElonService`) and products (`ProductService`), including the photo grouping and message counts added
    to them (`Enrich`, `Entries`);
  - addresses (`AdressService`).

  The save of a row enforces the entity's NOT NULL and UNIQUE columns, as the database does. Lemmas show that
  each operation keeps the uniqueness invariants and the elon/product-to-comment links.

JavaScript's own behaviour is modelled explicitly where the code relies on it (`Json`, `Strings`, `Common`):

- truthiness;
- the three states of a request field: left out, `null`, or given;
- `trim`, `split` and `split(/\s+/)`;
- the `TypeError` that `null.trim()` throws.

A TypeORM 0.3 lookup drops every criterion that is `undefined` or `null`, so such a criterion matches any row, and the model reproduces that.

Each service operation is a method of a class over its table and store. It is proved against an outcome
function of the old state, for example `clients == Stored(old(clients), id, UpdateOutcome(...))`. The
properties the code promises are lemmas about those functions.

Where the entity files and the services disagree, the model follows the services:

- The market service reads and writes a `username` that `market.entity.ts` does not declare.
- The elon service uses `adressname`, `supCategoryId` and `answerCount`, which `elon.entity.ts` lacks.
- The elon service saves a `null` `commentId` first, although the entity declares the column NOT NULL and UNIQUE.
- The sup-category service writes `photoPath` and `iconPath`, while `sup-category.entity.ts` declares `photoUrl` and
  `iconUrl`. `repo.create` keeps only declared columns, so as written no picture path is ever stored. The model
  stores the paths the service hands over.
- The product service writes `supCategoryId` and `amount`, which `product.entity.ts` does not declare, so as written
  neither is persisted. The model stores both.
- The request DTOs disagree with the services too. The elon service reads `adressname` and `supCategoryId`, and
  `create-elon.dto.ts` and `update-elon.dto.ts` declare neither. The product service reads `supCategoryId` and
  `amount`, and `create-product.dto.ts` and `update-product.dto.ts` declare neither. The global validation pipe runs
  with `whitelist` and `forbidNonWhitelisted` (`app.service.ts`), so as written a request carrying these keys is
  refused before the service runs, and they always arrive left out. The model follows the service code and
  lets them be sent. The "when sent" branches of `ElonService.CreatedElonShape`, `ProductService.CreatedProductShape`,
  `ElonService.WithAdressname`, `ElonService.WithSupCategory`, `ProductService.WithSupCategory` and
  `ProductService.WithAmount` describe what the services do with such a key.
- `register-client.dto.ts` declares no `verifyToken`, yet `completeRegister` builds its marker key from
  `dto.verifyToken`. A request carrying the token is refused, so as written the key always ends in `:undefined`.
  `verifyRegisterOtp` never writes such a key, because its token is a random UUID. Client registration
  therefore never completes as written: `ClientService.AbsentTokenNeverVerified` proves it answers
  "Phone not verified". The model still admits a sent token, and `ClientService.RegisterDto` carries it.
- No market DTO (`register-market.dto.ts`, `create-market.dto.ts`, `update-market.dto.ts`) declares `username`,
  so as written it always arrives left out. The username branches of `MarketService.NewUsername`,
  `MarketService.RegisterOutcome`, `MarketService.CreateOutcome`, `MarketService.UpdateOutcome` and
  `MarketService.RegisterUsernameRules` follow the service code, and as written they never run.

In `MarketService.update`, a username that trims to nothing is stored as `""`, not as `null`. That is what
`dto.username?.trim() ?? null` evaluates to.

## Model

| member | source | states |
|---|---|---|
| SuccessResponse.SuccessRes | src/infrastructure/response/success.response.ts:13-25 | the envelope carries data, status code and message as given; `meta` is attached exactly when it is truthy |
| SuccessResponse.ToJson | src/infrastructure/response/success.response.ts:6-11 | the serialised envelope always has `statusCode`, `message` and `data`, and has `meta` exactly when the envelope carries one |
| SuccessMessage.Localize | src/common/interceptor/success-message.interceptor.ts:16-26 | a body that is not an object with a bilingual `message` passes unchanged; otherwise `message` becomes the text in the request language (`ru` only when asked for, else `uz`) and every other key keeps its value |
| SuccessMessage.EnvelopeIsLocalized | src/common/interceptor/success-message.interceptor.ts:16-24 | every success envelope leaves the interceptor with its message as a plain string in the chosen language, its data and status code unchanged |
| SuccessMessage.LocalizeOnce | src/common/interceptor/success-message.interceptor.ts:22-24 | localizing an envelope a second time changes nothing, whatever the second language |
| Pagination.CeilDiv | src/infrastructure/pagination/RepositoryPager.ts:36 | `Math.ceil(a / b)` is the least `n` with `n * b >= a` |
| Pagination.WindowOf | src/infrastructure/pagination/RepositoryPager.ts:26-28 | page and limit are at least 1, default to 1 and 10, keep a valid requested value, and `skip = (page - 1) * limit` |
| Pagination.MetaOf | src/infrastructure/pagination/RepositoryPager.ts:36-47 | the meta block counts `total`, has zero pages exactly when there are no rows, enough pages for every row and no empty last page; `from` is 0 exactly when there are no rows, else `skip + 1`; `to` is `min(skip + limit, total)` |
| Pagination.PageWithinRange | src/infrastructure/pagination/RepositoryPager.ts:36-38 | the page holds rows exactly when there are rows and the page number is within the page count, and then it holds at most `limit` rows |
| Pagination.Paginate | src/infrastructure/pagination/RepositoryPager.ts:22-50 | the reply has status 200, the default message, the fetched rows as data and always the meta block of the clamped window |
| Token.VerifyTyped | src/infrastructure/token/Token.ts:43-72 | a token passes exactly when it verifies under the secret and carries no other non-empty type; the claims are the verified ones; every failure is the one Unauthorized message of that verifier |
| Token.VerifyAccessToken | src/infrastructure/token/Token.ts:43-57 | accepted exactly when the access secret verifies it and its type is missing, empty or `access`; otherwise Unauthorized "Invalid or expired access token" |
| Token.VerifyRefreshToken | src/infrastructure/token/Token.ts:59-73 | accepted exactly when the refresh secret verifies it and its type is missing, empty or `refresh`; otherwise Unauthorized "Invalid or expired refresh token" |
| Token.AccessToken | src/infrastructure/token/Token.ts:11-19 | under a sound JWT service the token verifies with the access secret to the payload's id, role and isActive stamped `access` |
| Token.RefreshToken | src/infrastructure/token/Token.ts:21-29 | under a sound JWT service the token verifies with the refresh secret to the payload stamped `refresh` |
| Token.AccessTokenVerifies | src/infrastructure/token/Token.ts:11-19 | an issued access token verifies as an access token and yields the payload's id, role and isActive stamped `access` |
| Token.RefreshTokenVerifies | src/infrastructure/token/Token.ts:21-29 | an issued refresh token verifies as a refresh token and yields the payload stamped `refresh` |
| Token.RefreshTokenIsNotAccess | src/infrastructure/token/Token.ts:21-29 | a refresh token is never accepted as an access token, whatever the two secrets |
| Token.AccessTokenIsNotRefresh | src/infrastructure/token/Token.ts:11-19 | an access token is never accepted as a refresh token, whatever the two secrets |
| Token.CookieOptionsFor | src/infrastructure/token/Token.ts:31-41 | the cookie is httpOnly on path `/`, secure exactly in production, SameSite `none` exactly when secure (else `lax`), and lives `days` days in milliseconds |
| Token.WriteCookie | src/infrastructure/token/Token.ts:31-41 | exactly one cookie with those options is appended to the response |
| RolesGuard.RequiredRoles | src/common/guard/roles.guard.ts:18-22 | the handler's declared roles win over the class's; the class's apply only when the handler declares none |
| RolesGuard.CanActivate | src/common/guard/roles.guard.ts:16-49 | an open route passes; otherwise no user is Unauthorized, an empty role is Forbidden "Role not found in token", and a role passes exactly when it is declared, else Forbidden "Access denied" |
| RolesGuard.AllowedIff | src/common/guard/roles.guard.ts:25-48 | the guard lets a request through exactly when the route is open or the token's non-empty role is declared |
| RolesGuard.HandlerOverridesClass | src/common/guard/roles.guard.ts:18-22 | once the handler declares roles, the class's roles make no difference to the verdict |
| AuthGuard.AuthHeader | src/common/guard/auth.guard.ts:18-20 | the lower-case `authorization` header wins when non-empty; otherwise the capitalised one, if any |
| AuthGuard.ParseBearer | src/common/guard/auth.guard.ts:22-34 | a missing or empty header is "Authorization header missing"; any other rejection is "Invalid authorization format"; an accepted token is non-empty and has no white space |
| AuthGuard.AcceptedHeaderShape | src/common/guard/auth.guard.ts:26-34 | every accepted header, trimmed, is `Bearer`, a non-empty white-space run, then the returned token |
| AuthGuard.WellFormedHeaderParses | src/common/guard/auth.guard.ts:26-34 | conversely every header of that form, with any white space around it, is accepted with its token |
| AuthGuard.CheckToken | src/common/guard/auth.guard.ts:36-57 | a token passes exactly when it verifies under the access secret, its type is missing, empty or `access`, and it is not flagged inactive; every failure is "Invalid or expired token" |
| AuthGuard.IssuedAccessTokenPasses | src/common/guard/auth.guard.ts:36-54 | an access token issued for a payload not flagged inactive passes and yields that payload |
| AuthGuard.RefreshTokenRefused | src/common/guard/auth.guard.ts:42-44 | a refresh token presented as Bearer token is always refused |
| AuthGuard.InactiveTokenRefused | src/common/guard/auth.guard.ts:47-49 | a validly signed token of a deactivated user is refused |
| AuthGuard.CanActivate | src/common/guard/auth.guard.ts:16-58 | the request passes exactly when the header parses and the token checks; then `req.user` is the verified claims, otherwise it is untouched and the error is the header's or "Invalid or expired token" |
| LanguageMiddleware.TrimAll | src/common/middleware/language.middleware.ts:29 | every cookie segment is trimmed, none dropped or reordered |
| LanguageMiddleware.FindTokenSegment | src/common/middleware/language.middleware.ts:30 | nothing is found exactly when no segment starts with `token=`; otherwise the first such segment |
| LanguageMiddleware.EncodedValue | src/common/middleware/language.middleware.ts:31 | the value taken from the segment is the text between the first and second `=`, so it holds no `=` |
| LanguageMiddleware.HeaderToken | src/common/middleware/language.middleware.ts:26-32 | a header with no `token=` segment yields no token; otherwise the first `token=` segment's text between its first and second `=` is decoded, the decoded text is the token and a failed decode is the only failure, a URIError |
| LanguageMiddleware.CookieToken | src/common/middleware/language.middleware.ts:24-32 | a non-empty parsed `token` cookie wins; otherwise a non-empty raw `Cookie` header is searched; otherwise there is no token |
| LanguageMiddleware.HeaderTokenExtracted | src/common/middleware/language.middleware.ts:26-32 | the header `token=<t>` yields `t` when `t` needs no decoding |
| LanguageMiddleware.MalformedHeaderTokenThrows | src/common/middleware/language.middleware.ts:31 | a broken percent escape in the header token makes the middleware throw URIError |
| LanguageMiddleware.SingleTokenSegment | src/common/middleware/language.middleware.ts:27-31 | the header `token=<t>` is found as the token segment and its encoded value is `t` |
| LanguageMiddleware.LangFor | src/common/middleware/language.middleware.ts:43-65 | the language is `ru` exactly for a client or market payload whose stored row is Russian; admins, unknown roles and missing rows get `uz` |
| LanguageMiddleware.LangForToken | src/common/middleware/language.middleware.ts:33-65 | no token, or one the refresh secret does not verify, gives `uz`; the result is always `uz` or `ru` |
| LanguageMiddleware.ClientRefreshTokenSelectsLanguage | src/common/middleware/language.middleware.ts:39-53 | a client's own refresh cookie selects `ru` exactly when the client's stored language is Russian |
| LanguageMiddleware.AdminTokenSelectsUzbek | src/common/middleware/language.middleware.ts:44-47 | an admin's or superadmin's token always selects `uz` |
| LanguageMiddleware.Use | src/common/middleware/language.middleware.ts:23-66 | the middleware fails only when the header token fails to decode, and then changes nothing; otherwise `req.lang` becomes the token's language and `next()` is called exactly once |
| ExceptionFilter.OrElse | src/infrastructure/exception/All-exception-filter.ts:41-42 | `s \|\| fallback`: a present non-empty string is kept, anything else falls back |
| ExceptionFilter.ClientIp | src/infrastructure/exception/All-exception-filter.ts:70-74 | the address is never empty; the trimmed first `x-forwarded-for` entry wins and holds no comma; then the trimmed `x-real-ip`; then `req.ip`; then "Unknown IP" |
| ExceptionFilter.Catch | src/infrastructure/exception/All-exception-filter.ts:21-113 | the reply's status and body status agree; an HttpException keeps its status (429 becomes the rate-limit message), its message or error and its error name; a unique violation is 409 "Duplicate entry", any other database error 500 "Database error"; a status object keeps its truthy status, message and error; anything else is 500 "Internal server error"; the body's path is the request's `originalUrl` (what `getRequestUrl` returns) and its method the request's; exactly statuses >= 500 and 429 are logged, with the client address, as a warning only for 429 |
| BaseService.Merge | src/infrastructure/base/base-service.ts:64 | the merged row has the entity's columns plus the DTO's defined ones; a defined DTO value overwrites, every other column keeps the entity's value, and `id` is never taken from the DTO |
| BaseService.MergeIsIdempotent | src/infrastructure/base/base-service.ts:64 | merging the same DTO a second time changes nothing |
| BaseService.NullCriterionIsDropped | src/infrastructure/base/base-service.ts:32-36 | a `null` criterion is dropped: the lookup answers as without it, so `{ email: null }` matches a row whose email is set |
| BaseService.MergeKeepsId | src/infrastructure/base/base-service.ts:58-67 | an update never changes the row's id |
| BaseService.BaseService.Create | src/infrastructure/base/base-service.ts:15-19 | the DTO is stored under the fresh id and returned with status 201 |
| BaseService.BaseService.FindOneBy | src/infrastructure/base/base-service.ts:32-43 | succeeds exactly when some row matches the criteria that are neither undefined nor null, and returns such a row; otherwise NotFound "Not found" |
| BaseService.BaseService.FindOneById | src/infrastructure/base/base-service.ts:45-56 | in a keyed table succeeds exactly when the id is stored, with that row; otherwise NotFound "Not found" |
| BaseService.BaseService.Update | src/infrastructure/base/base-service.ts:58-68 | a missing id is NotFound and changes nothing; otherwise the stored row becomes the merge with the DTO and is returned |
| BaseService.BaseService.Delete | src/infrastructure/base/base-service.ts:70-76 | a missing id is NotFound and changes nothing; otherwise exactly that row is removed and `{ deleted: true }` returned |
| BaseService.ByIdMatchesOnlyItsRow | src/infrastructure/base/base-service.ts:49-52 | in a keyed table the criteria `{ id }` match the row under `id` and no other |
| BaseService.CreateKeepsKeyed | src/infrastructure/base/base-service.ts:15-19 | after a create every row is still stored under its own id |
| BaseService.UpdateKeepsKeyed | src/infrastructure/base/base-service.ts:58-68 | after an update every row is still stored under its own id |
| AuthCommon.CheckCredentials | src/common/auth/auth-common.service.ts:49-58 | sign-in passes exactly for a found account not flagged inactive whose digest matches the password; every refusal is the same BadRequest "Username or password incorrect" |
| AuthCommon.InactiveLooksMissing | src/common/auth/auth-common.service.ts:52-54 | a deactivated account answers exactly like a missing one, whatever password is tried |
| AuthCommon.PasswordDecides | src/common/auth/auth-common.service.ts:56-58 | with an ideal bcrypt an active account signs in with exactly the password its digest was made from |
| AuthCommon.PayloadOf | src/common/auth/auth-common.service.ts:60 | the token payload is the account's id, role and active flag, with no type |
| AuthCommon.LoginData | src/common/auth/auth-common.service.ts:67-75 | the body holds the access token, the role and the safe user view (the whole row without `safeUser`), and keys of the extra data override them |
| AuthCommon.LoginAccessTokenVerifies | src/common/auth/auth-common.service.ts:60-62 | the access token handed out at login passes the access check with the account's id, role and active flag |
| AuthCommon.SignIn | src/common/auth/auth-common.service.ts:28-78 | succeeds exactly when the credentials check; then one refresh-token cookie (default key `token`, 15 days) is appended and the login data returned with status 200; on failure no cookie is written |
| Upload.AllowByGroup | src/infrastructure/upload/upload.util.ts:23-28 | `any` accepts every file; `image` and `audio` accept exactly a mimetype starting with `image/` or `audio/`, and never a missing one |
| Upload.BuildMulterOptions | src/infrastructure/upload/upload.util.ts:34-49 | the folder loses at most one leading slash, the group defaults to `any`, and the size limit is the given megabytes (default 5) in bytes |
| Upload.FileFilter | src/infrastructure/upload/upload.util.ts:50-64 | a file is accepted exactly when its group allows it; otherwise BadRequest with the message of the configured group |
| Upload.ToPublicPath | src/infrastructure/upload/upload.util.ts:71-74 | the public path starts with `/uploads/` and, for a folder without a leading slash, is `/uploads/<folder>/<filename>` |
| Upload.LeadingSlashIgnored | src/infrastructure/upload/upload.util.ts:72 | one leading slash on the folder makes no difference to the public path |
| Upload.PublicPathOnDisk | src/api/category/category.service.ts:26-28 | a public path with its leading slashes stripped names the file below `uploads/` |
| UploadCleanup.ToDiskPath | src/api/category/category.service.ts:26-28 | the disk path is the working directory joined with the public path stripped of all leading slashes |
| UploadCleanup.ExtraSlashIgnored | src/api/category/category.service.ts:27 | one more leading slash on the public path lands on the same file |
| UploadCleanup.Replaced | src/api/category/category.service.ts:99-104 | a stored path is replaced exactly by a non-empty upload and kept otherwise |
| UploadCleanup.Uploaded | src/api/category/category.service.ts:32-33 | the clean-up targets are exactly the non-empty paths given |
| UploadCleanup.NothingUploadedNothingRemoved | src/api/category/category.service.ts:32-33 | with no non-empty path nothing is targeted |
| UploadCleanup.Disk.Cleanup | src/api/category/category.service.ts:30-42 | exactly the disk paths of the non-empty uploads are removed; a file already missing is no error |
| CategoryService.SaveError | src/core/entity/category.entity.ts:9-10 | the save fails with a unique violation exactly when another row has the same `nameUz` |
| CategoryService.SaveKeepsConsistent | src/core/entity/category.entity.ts:9-10 | a save that passes the constraint keeps every stored name trimmed, non-empty and unique |
| CategoryService.CreateName | src/api/category/category.service.ts:46-47 | the create name exists exactly when a string was sent whose trim is non-empty, and it is that trim |
| CategoryService.CreateOutcome | src/api/category/category.service.ts:44-65 | a missing or blank name is BadRequest "nameUz is required"; a taken name is Conflict "Category nameUz already exists"; otherwise the new row has the trimmed name, the other fields or null, and passes the save constraint |
| CategoryService.UpdateOutcome | src/api/category/category.service.ts:80-112 | a missing row is NotFound; a null name TypeError; a blank one BadRequest "nameUz cannot be empty"; Conflict exactly when another row has the trimmed name; otherwise the edited row, which passes the save constraint |
| CategoryService.UpdatedFields | src/api/category/category.service.ts:89-104 | an update keeps the id and every field the request leaves out; a given name is trimmed, a defined `nameRu` is stored as sent or NULL; the photo and icon change exactly for non-empty uploads |
| CategoryService.OwnNameDoesNotConflict | src/api/category/category.service.ts:19-24 | a category may be renamed to its own name |
| CategoryService.CreateKeepsConsistent | src/api/category/category.service.ts:44-65 | a create keeps the table's names trimmed, non-empty and unique |
| CategoryService.UpdateKeepsConsistent | src/api/category/category.service.ts:80-112 | an update keeps the table's names trimmed, non-empty and unique |
| CategoryService.Reply | src/api/category/category.service.ts:59-60 | an outcome becomes the envelope of the row with the given status, or its error unchanged |
| CategoryService.UpdateReachesSave | src/api/category/category.service.ts:106 | past the name rules the update's outcome is the save of the edited row |
| CategoryService.CategoryService.Create | src/api/category/category.service.ts:44-65 | the reply and the new table follow the create outcome; a failure after the name check removes the uploaded files, the early BadRequest leaves them |
| CategoryService.CategoryService.Update | src/api/category/category.service.ts:80-112 | the reply and the new table follow the update outcome; any failure past the lookup removes the uploaded files |
| CategoryService.CategoryService.Remove | src/api/category/category.service.ts:114-120 | a missing id is NotFound and changes nothing; a category a product, elon, sup-category or group row still points at is refused by the RESTRICT foreign key (23503) and stays; otherwise exactly that row is removed and `{ deleted: true }` returned |
| SupCategoryService.SaveError | src/core/entity/sup-category.entity.ts:10-14 | the save fails with a unique violation exactly when another row has the same `nameUz` or the same non-null `nameRu` |
| SupCategoryService.SaveKeepsConsistent | src/core/entity/sup-category.entity.ts:10-14 | a save that passes the constraints keeps the Uzbek names trimmed, non-empty and unique and the Russian names unique |
| SupCategoryService.CreateName | src/api/sup-category/sup-category.service.ts:56-57 | the create name exists exactly when a string was sent whose trim is non-empty, and it is that trim |
| SupCategoryService.CreateOutcome | src/api/sup-category/sup-category.service.ts:52-77 | a missing or blank name is BadRequest; a taken name Conflict "SupCategory nameUz already exists"; BadRequest "Category not found" exactly when the name is free and the category missing; otherwise the new row, which passes the save constraints |
| SupCategoryService.NameCheck | src/api/sup-category/sup-category.service.ts:108-113 | a left-out name passes; null is TypeError; blank is BadRequest "nameUz cannot be empty"; a non-blank name passes exactly when no other row has its trim |
| SupCategoryService.UpdateOutcome | src/api/sup-category/sup-category.service.ts:99-135 | a missing row is NotFound; then the name rules; BadRequest "Category not found" exactly when a changed category is missing; otherwise the edited row, which passes the save constraints |
| SupCategoryService.SavedCategoryExists | src/api/sup-category/sup-category.service.ts:117-120 | an updated row's category is the requested one, which exists, or the one it had |
| SupCategoryService.UpdatedFields | src/api/sup-category/sup-category.service.ts:108-127 | an update keeps the id and every field the request leaves out; a given name is trimmed, a defined `nameRu` is stored as sent or NULL, a given category replaces the old one; the photo and icon change exactly for non-empty uploads |
| SupCategoryService.CreateKeepsConsistent | src/api/sup-category/sup-category.service.ts:52-77 | a create keeps the table's name invariants |
| SupCategoryService.UpdateKeepsConsistent | src/api/sup-category/sup-category.service.ts:99-135 | an update keeps the table's name invariants |
| SupCategoryService.Reply | src/api/sup-category/sup-category.service.ts:71-72 | an outcome becomes the envelope of the row with the given status, or its error unchanged |
| SupCategoryService.UpdateReachesSave | src/api/sup-category/sup-category.service.ts:129 | past the name and category checks the update's outcome is the save of the edited row |
| SupCategoryService.SupCategoryService.Create | src/api/sup-category/sup-category.service.ts:52-77 | the reply and the new table follow the create outcome; a failure after the name check removes the uploaded files |
| SupCategoryService.SupCategoryService.Update | src/api/sup-category/sup-category.service.ts:99-135 | the reply and the new table follow the update outcome; any failure past the lookup removes the uploaded files |
| SupCategoryService.SupCategoryService.Remove | src/api/sup-category/sup-category.service.ts:137-143 | a missing id is NotFound and changes nothing; otherwise exactly that row is removed and `{ deleted: true }` returned |
| AdminService.SaveError | src/core/entity/admin.entity.ts:8-23 | the save fails with a unique violation exactly when another row shares the username, phone number or email |
| AdminService.SaveKeepsConsistent | src/core/entity/admin.entity.ts:8-23 | a save that passes the constraints keeps every row under its own id and the three columns unique |
| AdminService.SeedOutcome | src/api/admin/admin.service.ts:55-76 | with a superadmin present nothing is seeded; otherwise the superadmin of the configuration, with the hashed password and active, is saved, and the only failure is a unique violation |
| AdminService.Seeded | src/api/admin/admin.service.ts:74 | the seeded row is added under its id, and nothing changes otherwise |
| AdminService.SeedIsIdempotent | src/api/admin/admin.service.ts:55-76 | a second start-up finds the superadmin and leaves the table as the first left it |
| AdminService.CreateOutcome | src/api/admin/admin.service.ts:101-124 | a taken username, then phone, then email is a Conflict with its message; otherwise a new active `admin` with the hashed password, which passes the save constraints |
| AdminService.FreeValuesCreate | src/api/admin/admin.service.ts:101-124 | with the three values free, creation succeeds |
| AdminService.View | src/api/admin/admin.service.ts:126-135 | the returned projection never holds the password, and carries the id, username and role |
| AdminService.UpdateOutcome | src/api/admin/admin.service.ts:159-187 | a missing row is NotFound "Admin not found"; the username conflict happens exactly when a changed username is taken, the phone conflict exactly when then a changed phone is taken; past the checks an `isActive` sent as `null` is refused by its NOT NULL column (23502); otherwise the edited row, which passes the save constraints |
| AdminService.UnchangedValuesDoNotConflict | src/api/admin/admin.service.ts:163-179 | sending back the current username, phone and email, or nothing, never raises a conflict |
| AdminService.ChangedValuesConflict | src/api/admin/admin.service.ts:169-179 | a changed phone or email that a row already has is refused with its Conflict, in that order |
| AdminService.UpdatedFields | src/api/admin/admin.service.ts:163-185 | the id never changes; role and active flag change only when given; the password is re-hashed only for a non-empty one; a non-empty username, phone or email is the new value, otherwise the old one stays |
| AdminService.DeleteOutcome | src/api/admin/admin.service.ts:203-213 | a missing row is NotFound; a superadmin is Forbidden; deletion is allowed exactly for an existing non-superadmin |
| AdminService.DeleteKeepsSuperAdmins | src/api/admin/admin.service.ts:207-209 | every superadmin row survives any delete unchanged |
| AdminService.SeedKeepsConsistent | src/api/admin/admin.service.ts:55-76 | seeding keeps the table consistent |
| AdminService.CreateKeepsConsistent | src/api/admin/admin.service.ts:101-138 | creation keeps the table consistent |
| AdminService.UpdateKeepsConsistent | src/api/admin/admin.service.ts:159-201 | an update keeps the table consistent |
| AdminService.Reply | src/api/admin/admin.service.ts:137 | an outcome becomes the envelope of the safe view with the given status, or its error unchanged |
| AdminService.CountByDay | src/api/admin/admin.service.ts:239-244 | one bucket per requested day, in order, each labelled with its day |
| AdminService.CountByDayZeroFills | src/api/admin/admin.service.ts:239-244 | a day the query did not return counts 0, and a day it returned counts the value of its last row |
| AdminService.LastNDays | src/api/admin/admin.service.ts:215-226 | `n` consecutive days ending today, oldest first (none for `n <= 0`) |
| AdminService.UpdateReachesSave | src/api/admin/admin.service.ts:187 | past the three checks the update's outcome is the save of the edited row |
| AdminService.AdminService.OnModuleInit | src/api/admin/admin.service.ts:55-76 | the table and the result follow the seed outcome |
| AdminService.AdminService.CreateAdmin | src/api/admin/admin.service.ts:101-138 | the reply (status 201) and the new table follow the create outcome |
| AdminService.AdminService.UpdateAdmin | src/api/admin/admin.service.ts:159-201 | the reply and the new table follow the update outcome; each check runs before its field is assigned, and a `null` active flag fails at the save |
| AdminService.AdminService.DeleteAdmin | src/api/admin/admin.service.ts:203-213 | the reply and the new table follow the delete outcome; a deleted row is removed and `{ deleted: true }` returned |
| Entries.ToMap | src/api/admin/admin.service.ts:239 | every entry's key is in the map, and every key of the map comes from an entry |
| Entries.AbsentKeyHasNoValue | src/api/admin/admin.service.ts:243 | a key no entry mentions is not in the map |
| Entries.LastEntryWins | src/api/admin/admin.service.ts:239 | a key maps to the value of the last entry that mentions it |
| Entries.SetAll | src/api/elon/elon.service.ts:247-249 | setting the entries one by one on an empty map builds the same map |
| KeyValue.ValueAt | src/api/client/client.service.ts:124-125 | a key has a value exactly while it is stored and not yet expired, and it is the stored value |
| KeyValue.Store.Get | src/api/client/client.service.ts:89-90 | `GET` returns a value exactly for a live key, the stored one |
| KeyValue.Store.Ttl | src/api/client/client.service.ts:99-105 | `TTL` is -2 exactly for a missing or expired key, -1 exactly for a live key without expiry, and otherwise the positive seconds left |
| KeyValue.Store.Set | src/api/client/client.service.ts:76-81 | `SET … EX ttl` overwrites the key's value and expiry and nothing else; the key is then live with that value |
| KeyValue.Store.Del | src/api/client/client.service.ts:109 | `DEL` removes exactly the key, which then has no value |
| KeyValue.Store.Tick | src/api/client/client.service.ts:34-35 | time passes without touching the stored entries |
| Otp.RandomInt | src/api/client/client.service.ts:73 | the draw lies in `[min, max)` |
| Otp.NatToString | src/api/client/client.service.ts:73 | `String(n)` is a non-empty run of decimal digits with no leading zero |
| Otp.NatToStringRoundTrip | src/api/client/client.service.ts:73 | reading the decimal rendering back gives the number |
| Otp.NatToStringLength | src/api/client/client.service.ts:73 | a number with `k` digits renders to exactly `k` characters |
| Otp.OtpCodeIsSixDigits | src/api/client/client.service.ts:73 | every code handed out is exactly six decimal digits denoting a number in [100000, 999999] |
| Otp.OtpCode | src/api/client/client.service.ts:73 | the code handed out is exactly six characters, each a decimal digit |
| OtpFlow.Apply | src/api/client/client.service.ts:98-109 | writing back a step's entry changes only that key: set to the entry, or deleted |
| OtpFlow.CheckStep | src/api/client/client.service.ts:86-109 | no live entry is "OTP expired" and changes nothing; success happens exactly for a live record with fewer than five attempts whose digest matches the code, and deletes it; the entry is deleted on nothing but success; any other change is "OTP is incorrect" with one more attempt and the same digest |
| OtpFlow.AttemptsStayBounded | src/api/client/client.service.ts:93-106 | a record never goes past five attempts |
| OtpFlow.ExpiryNeverExtended | src/api/client/client.service.ts:99-105 | a failed attempt never extends the life of a record that had an expiry |
| OtpFlow.WrongCodeCountsOnce | src/api/client/client.service.ts:97-106 | a wrong code is "OTP is incorrect", costs exactly one attempt and keeps the digest |
| OtpFlow.ExhaustedRefusesEverything | src/api/client/client.service.ts:93-95 | after five failed attempts even the right code is refused with "OTP attempts exceeded" and the record stays |
| OtpFlow.OnlyIssuedCodeVerifies | src/api/client/client.service.ts:97-109 | with an ideal bcrypt a live record with attempts left accepts exactly the code it was issued for |
| OtpFlow.IssueCode | src/api/client/client.service.ts:73-81 | the code is the draw's rendering and its digest, with zero attempts, replaces the key's entry for 300 seconds |
| OtpFlow.CheckCode | src/api/client/client.service.ts:86-109 | the result and the key's new entry are those of the verification step on the entry found; nothing else in the store changes |
| ClientService.Safe | src/api/client/client.service.ts:38-41 | the view has no password and every other column of the row |
| ClientService.SaveError | src/core/entity/client.entity.ts:10-20 | the save passes exactly when full name, username and phone are set and neither username nor phone is another row's; otherwise a NOT NULL or unique violation |
| ClientService.SaveKeepsConsistent | src/core/entity/client.entity.ts:13-20 | a save that passes the constraints keeps usernames and phones unique |
| ClientService.RegisterOutcome | src/api/client/client.service.ts:121-143 | no live marker for the trimmed phone and token is "Phone not verified"; then a taken username (any row, when none is sent) is Conflict; then a taken trimmed phone is Conflict "Phone number already exists"; then a username not sent throws a TypeError; a saved row has the trimmed username and phone, the hashed password, the language or `uz`, and passes the save constraints |
| ClientService.PaddedUsernameHitsConstraint | src/api/client/client.service.ts:127-141 | a padded copy of an existing username passes the service's check and is refused by the UNIQUE constraint instead |
| ClientService.RegisterReachesSave | src/api/client/client.service.ts:133-141 | past the checks, registration's outcome is the save of the new row |
| ClientService.VerifiedKeyDeterminesToken | src/api/client/client.service.ts:110-112 | two marker keys for one phone are equal only when their tokens are |
| ClientService.AbsentTokenNeverVerified | src/api/client/client.service.ts:110-125 | with the token left out, a marker written under any other token does not verify: registration is "Phone not verified" unless a marker ending in `:undefined` is live |
| ClientService.RegisteredViewHidesPassword | src/api/client/client.service.ts:143 | the registration response never carries the password and has status 201 |
| ClientService.UpdateOutcome | src/api/client/client.service.ts:146-175 | a missing row is NotFound; the username conflict happens exactly when a sent username trims to another row's; the phone conflict exactly when then a non-blank trimmed phone is another row's; past both a `language` sent as `null` is refused by its NOT NULL column (23502); otherwise the edited row, which passes the save constraints |
| ClientService.UpdatedFields | src/api/client/client.service.ts:150-171 | only the sent fields change (username and phone trimmed, password re-hashed); id, role, active flag and photo never do |
| ClientService.OwnUsernameDoesNotConflict | src/api/client/client.service.ts:152-153 | a client may send back its own username |
| ClientService.WithoutPrivileged | src/api/client/client.service.ts:182 | the DTO of `updateMe` has no role and no active flag |
| ClientService.UpdateMeSameAsUpdate | src/api/client/client.service.ts:181-184 | dropping role and active flag does not change the update's outcome |
| ClientService.UpdateReachesSave | src/api/client/client.service.ts:173 | past both conflict checks the update's outcome is the save of the edited row |
| ClientService.UpdateKeepsConsistent | src/api/client/client.service.ts:146-175 | an update keeps the table consistent |
| ClientService.RegisterKeepsConsistent | src/api/client/client.service.ts:121-144 | a registration under a fresh id keeps the table consistent |
| ClientService.Reply | src/api/client/client.service.ts:174 | an outcome becomes the envelope of the safe view with status 200, or its error unchanged |
| ClientService.ClientService.RequestRegisterOtp | src/api/client/client.service.ts:68-84 | a registered phone is Conflict and leaves the store alone; otherwise the fresh code is returned and its record replaces the entry under `otp:client:<phone>` for 300 seconds |
| ClientService.ClientService.VerifyRegisterOtp | src/api/client/client.service.ts:86-119 | the result follows the verification step; on failure the step's entry is written back; on success the record is gone and a marker for the phone and token lives 600 seconds |
| ClientService.ClientService.CompleteRegister | src/api/client/client.service.ts:121-144 | the result follows the registration outcome; on success the row is added and the marker consumed; on any error neither table nor store changes |
| ClientService.ClientService.Update | src/api/client/client.service.ts:146-175 | the reply and the new table follow the update outcome, including the NOT NULL failure of a `null` language |
| ClientService.ClientService.UpdateMe | src/api/client/client.service.ts:181-184 | the same reply and table as a full update with the same DTO |
| MarketService.Safe | src/api/market/market.service.ts:38-41 | the view has no password and every other column of the row |
| MarketService.SaveError | src/core/entity/market.entity.ts:11-16 | the save passes exactly when the name is set and no other row has the phone; otherwise a NOT NULL or unique violation |
| MarketService.SaveKeepsConsistent | src/core/entity/market.entity.ts:14-16 | a save the constraints accept, of a row whose username no other row has, keeps phones and usernames unique |
| MarketService.NewUsername | src/api/market/market.service.ts:164-169 | a supplied username is trimmed; blank is "Username cannot be empty", one some row has is Conflict exactly when taken, otherwise it is the free trimmed name |
| MarketService.NewMarket | src/api/market/market.service.ts:171-179 | the new row: trimmed phone, the username decided, hashed password, name only when truthy, address id and photo or NULL, the language or `ru`, role `market`, active |
| MarketService.RegisterOutcome | src/api/market/market.service.ts:156-181 | no live marker for the trimmed phone is "Phone not verified"; then a taken phone is Conflict; a saved row is the new market with a free username and passes the constraints |
| MarketService.CreateOutcome | src/api/market/market.service.ts:95-118 | a taken phone is Conflict; a username that is not a non-empty string is ignored; a saved row is the new market and passes the constraints |
| MarketService.CompletionIgnoresToken | src/api/market/market.service.ts:157-160 | the marker is looked up by phone alone, so the outcome does not depend on any verify token |
| MarketService.PhoneCheckedBeforeUsername | src/api/market/market.service.ts:162-168 | with both phone and username taken, the phone conflict is the one reported |
| MarketService.RegisterUsernameRules | src/api/market/market.service.ts:164-168 | past marker and phone, a blank username is BadRequest and a taken one Conflict |
| MarketService.RegisterAgreesWithCreate | src/api/market/market.service.ts:95-119 | with a live marker and a username left out or a non-empty string, registration and `create` decide the same |
| MarketService.RegisteredViewHidesPassword | src/api/market/market.service.ts:183 | the registration response never carries the password and has status 201 |
| MarketService.CheckPhone | src/api/market/market.service.ts:82-86 | `exists` is whether some row has the trimmed phone, status 200 |
| MarketService.CheckUsername | src/api/market/market.service.ts:88-93 | a blank username never exists; otherwise `exists` is true exactly when some row has the trimmed name |
| MarketService.CheckedPhoneBlocksCreate | src/api/market/market.service.ts:82-99 | a phone reported as existing makes `create` a Conflict |
| MarketService.CheckedUsernameBlocksCreate | src/api/market/market.service.ts:88-105 | a username reported as existing makes `create` with a free phone a Conflict |
| MarketService.RegisterKeepsConsistent | src/api/market/market.service.ts:156-183 | a registration under a fresh id keeps the table consistent |
| MarketService.CreateKeepsConsistent | src/api/market/market.service.ts:95-119 | a creation under a fresh id keeps the table consistent |
| MarketService.NewUsernameIsFree | src/api/market/market.service.ts:164-169 | an accepted username belongs to no existing row |
| MarketService.UpdateOutcome | src/api/market/market.service.ts:186-220 | a missing row is NotFound; a `null` phone throws; the phone conflict happens exactly when another row has the trimmed phone; the username conflict exactly when then another row has the non-blank trimmed username; past both a `language` or `isActive` sent as `null` is refused by its NOT NULL column (23502); otherwise the edited row, which passes the constraints |
| MarketService.UpdatedFields | src/api/market/market.service.ts:190-217 | only defined fields change (phone and username trimmed, a `null` username cleared, password re-hashed only when truthy); id and role never do |
| MarketService.OwnValuesDoNotConflict | src/api/market/market.service.ts:195-203 | a market may send back its own phone and username |
| MarketService.UpdateKeepsConsistent | src/api/market/market.service.ts:186-220 | an update keeps the table consistent |
| MarketService.WithoutActive | src/api/market/market.service.ts:228 | the DTO of `updateMe` has no active flag |
| MarketService.UpdateMeKeepsActive | src/api/market/market.service.ts:227-230 | `updateMe` never changes the active flag |
| MarketService.Reply | src/api/market/market.service.ts:119 | an outcome becomes the envelope of the safe view with the given status, or its error unchanged |
| MarketService.UpdateReachesSave | src/api/market/market.service.ts:219 | past the checks the update's outcome is the save of the edited row |
| MarketService.RegisterReachesSave | src/api/market/market.service.ts:171-181 | past the checks registration's outcome is the save of the new row |
| MarketService.CreateReachesSave | src/api/market/market.service.ts:108-118 | past the checks creation's outcome is the save of the new row |
| MarketService.MarketService.RequestRegisterOtp | src/api/market/market.service.ts:64-80 | a registered phone is Conflict and leaves the store alone; otherwise the fresh code is returned and its record replaces the entry under `otp:market:<phone>` for 300 seconds |
| MarketService.MarketService.VerifyRegisterOtp | src/api/market/market.service.ts:122-154 | the result follows the verification step; on failure the step's entry is written back; on success the record is gone and the phone's marker lives 600 seconds |
| MarketService.MarketService.CompleteRegister | src/api/market/market.service.ts:156-184 | the reply and the table follow the registration outcome; the marker is consumed only on success |
| MarketService.MarketService.Create | src/api/market/market.service.ts:95-120 | the reply and the table follow the creation outcome |
| MarketService.MarketService.Update | src/api/market/market.service.ts:186-221 | the reply and the table follow the update outcome, including the NOT NULL failure of a `null` language or active flag |
| MarketService.MarketService.UpdateMe | src/api/market/market.service.ts:227-230 | the update outcome without the active flag; the row's active flag is kept |
| ElonService.EnsureRelations | src/api/elon/elon.service.ts:202-228 | passes exactly when every truthy id names an existing row; otherwise the first missing one, in the order category, sup-category, group, is the NotFound |
| ElonService.TrimmedOrNull | src/api/elon/elon.service.ts:60 | a given address name is trimmed, a left-out or `null` one is NULL |
| ElonService.CreatedElonShape | src/api/elon/elon.service.ts:58-78 | the created elon has trimmed text, a trimmed-or-null address name, price, group and sup-category only when sent, the caller as client, status negotiation, no answers, and is linked to a fresh ELON thread pointing back at it |
| ElonService.WithText | src/api/elon/elon.service.ts:111 | only the text can change, and not unless a string is sent |
| ElonService.WithAdressname | src/api/elon/elon.service.ts:112 | only the address name can change, and not when it is left out |
| ElonService.WithCategory | src/api/elon/elon.service.ts:113 | only the category can change, and not unless an id is sent |
| ElonService.WithSupCategory | src/api/elon/elon.service.ts:114 | only the sup-category can change, and not when it is left out |
| ElonService.WithPrice | src/api/elon/elon.service.ts:115 | only the price can change, and not when it is left out |
| ElonService.WithGroup | src/api/elon/elon.service.ts:116 | only the group can change, and not when it is left out |
| ElonService.WithStatus | src/api/elon/elon.service.ts:117 | only the status can change, and not unless a status is sent |
| ElonService.UpdateOutcome | src/api/elon/elon.service.ts:102-119 | a missing row is NotFound, then a failed relation check is its error; the update succeeds exactly when the row exists, the relations resolve and text, category and status are not `null`, and then it is the edited row |
| ElonService.UpdateKeepsIdentity | src/api/elon/elon.service.ts:111-117 | id, client, thread and answer count are never assigned |
| ElonService.UpdateKeepsUndefinedFields | src/api/elon/elon.service.ts:111-117 | every field the request leaves out keeps its value |
| ElonService.UpdateSetsDefinedFields | src/api/elon/elon.service.ts:111-117 | every field the request defines takes the sent value, text and address name trimmed, `null` clearing the nullable columns |
| ElonService.EmptyUpdateChangesNothing | src/api/elon/elon.service.ts:111-117 | an empty request saves the row unchanged |
| ElonService.CreateKeepsLinked | src/api/elon/elon.service.ts:58-80 | a creation keeps every elon linked to an ELON thread that points back at it |
| ElonService.UpdateKeepsLinked | src/api/elon/elon.service.ts:111-119 | an update keeps every link |
| ElonService.DeleteKeepsLinked | src/api/elon/elon.service.ts:172-177 | deleting an elon with its thread leaves every other elon's thread in place |
| ElonService.ElonService.EnrichOne | src/api/elon/elon.service.ts:230-277 | the body is the row with the elon's own photos attached and no message count |
| ElonService.ElonService.SavePhotos | src/api/elon/elon.service.ts:120-130 | one photo per path, pointing at the elon, is appended; elons and comments stay |
| ElonService.ElonService.CreateForClient | src/api/elon/elon.service.ts:36-95 | a failed relation check changes nothing and is the error; otherwise the new elon, its thread and its photos are saved, and the elon is returned with status 201 listing no photos, because the enrichment reads outside the uncommitted transaction |
| ElonService.ElonService.UpdateWithPhoto | src/api/elon/elon.service.ts:97-133 | the table follows the update outcome; an error adds no photo; a success appends the photos and returns the saved row with all its photos |
| ElonService.ElonService.Delete | src/api/elon/elon.service.ts:164-181 | a missing elon is NotFound and nothing changes; otherwise the elon and its thread, when its id is truthy, are removed and `{ deleted: true }` returned |
| ElonService.ElonService.IncrementAnswerCount | src/api/elon/elon.service.ts:183-190 | a missing elon is "Elon Not found"; otherwise the answer count rises by one and nothing else changes |
| ElonService.ElonService.UpdateStatus | src/api/elon/elon.service.ts:192-200 | a missing elon is NotFound; otherwise only the status changes and the enriched row is returned |
| ProductService.EnsureRelations | src/api/product/product.service.ts:175-193 | passes exactly when every truthy id names an existing row; otherwise the category, then the sup-category, is the NotFound |
| ProductService.CreatedProductShape | src/api/product/product.service.ts:52-72 | the created product has a trimmed name, sup-category and description only when sent, the caller as market, the sent category and price, is active, and is linked to a fresh PRODUCT thread pointing back at it |
| ProductService.WithName | src/api/product/product.service.ts:105 | only the name can change, and not unless a string is sent |
| ProductService.WithCategory | src/api/product/product.service.ts:106 | only the category can change, and not unless an id is sent |
| ProductService.WithSupCategory | src/api/product/product.service.ts:107 | only the sup-category can change, and not when it is left out |
| ProductService.WithPrice | src/api/product/product.service.ts:108 | only the price can change, and not unless a price is sent |
| ProductService.WithAmount | src/api/product/product.service.ts:109 | only the amount can change, and not when it is left out |
| ProductService.WithDescription | src/api/product/product.service.ts:110 | only the description can change, and not when it is left out |
| ProductService.WithActive | src/api/product/product.service.ts:111 | only the active flag can change, and not unless a flag is sent |
| ProductService.UpdateOutcome | src/api/product/product.service.ts:97-113 | a missing row is NotFound, then a failed relation check is its error; the update succeeds exactly when the row exists, the relations resolve and name, category, price and active flag are not `null`, and then it is the edited row |
| ProductService.UpdateKeepsIdentity | src/api/product/product.service.ts:105-111 | id, market and thread are never assigned |
| ProductService.UpdateKeepsUndefinedFields | src/api/product/product.service.ts:105-111 | every field the request leaves out keeps its value |
| ProductService.UpdateSetsDefinedFields | src/api/product/product.service.ts:105-111 | every field the request defines takes the sent value, the name trimmed, `null` clearing the nullable columns |
| ProductService.CreateKeepsLinked | src/api/product/product.service.ts:52-74 | a creation keeps every product linked to a PRODUCT thread that points back at it |
| ProductService.UpdateKeepsLinked | src/api/product/product.service.ts:105-113 | an update keeps every link |
| ProductService.DeleteKeepsLinked | src/api/product/product.service.ts:164-169 | deleting a product with its thread leaves every other product's thread in place |
| ProductService.ProductService.EnrichOne | src/api/product/product.service.ts:195-243 | the body is the row with the product's own photos attached and no message count |
| ProductService.ProductService.SavePhotos | src/api/product/product.service.ts:114-124 | one photo per path, pointing at the product, is appended; products and comments stay |
| ProductService.ProductService.CreateForMarket | src/api/product/product.service.ts:33-90 | a failed relation check changes nothing and is the error; otherwise the new product, its thread and its photos are saved, and the product is returned with status 201 listing no photos, because the enrichment reads outside the uncommitted transaction |
| ProductService.ProductService.UpdateWithPhoto | src/api/product/product.service.ts:92-127 | the table follows the update outcome; an error adds no photo; a success appends the photos and returns the saved row with all its photos |
| ProductService.ProductService.Delete | src/api/product/product.service.ts:156-173 | a missing product is NotFound and nothing changes; otherwise the product and its thread, when its id is truthy, are removed and `{ deleted: true }` returned |
| Enrich.Fetched | src/api/elon/elon.service.ts:234-237 | the photos fetched are table rows owned by one of the rows being enriched |
| Enrich.PhotosOf | src/api/elon/elon.service.ts:239-245 | a row's photos are exactly the table's photos it owns, in table order |
| Enrich.PhotosOfAppend | src/api/elon/elon.service.ts:239-245 | grouping distributes over concatenation of the photo table |
| Enrich.FetchedKeepsOwnPhotos | src/api/elon/elon.service.ts:234-245 | fetching only the enriched rows' photos loses none of a row's own |
| Enrich.NewPhotos | src/api/elon/elon.service.ts:120-130 | one photo per path with its id, owned by the row in the scope and by nothing in the other scope |
| Enrich.AllOwnedListed | src/api/elon/elon.service.ts:239-245 | a table all of whose photos a row owns is that row's list |
| Enrich.NewPhotosListedLast | src/api/elon/elon.service.ts:120-131 | in table order (the `createdAt DESC` ordering is left out, as for `Enrich.EnrichAll`), photos saved for a row follow the ones it had, in path order |
| Enrich.NewRowHasOnlyNewPhotos | src/api/elon/elon.service.ts:81-92 | once saved and committed, a new row has exactly the photos saved with it |
| Enrich.NoneOwnedNoneListed | src/api/elon/elon.service.ts:268 | a row no photo points at gets `[]` |
| Enrich.GroupPhotos | src/api/elon/elon.service.ts:239-245 | the map built by the loop gives every row exactly its own photos, and holds no empty list |
| Enrich.CommentIds | src/api/elon/elon.service.ts:247-252 | no comment id is collected exactly when no row has a truthy comment id, so the count query is skipped |
| Enrich.CommentPart | src/api/elon/elon.service.ts:269-274 | a loaded thread is kept exactly when its id is truthy, with the counted messages or 0 |
| Enrich.Ids | src/api/elon/elon.service.ts:233 | every enriched row's id is among those queried |
| Enrich.EnrichAll | src/api/product/product.service.ts:195-243 | one result per row, each with exactly its own photos and its thread with the message count |
| Enrich.UncountedCommentHasNoMessages | src/api/elon/elon.service.ts:272 | a thread no count row mentions shows 0 messages |
| AdressService.NewAdress | src/api/adress/adress.service.ts:20-29 | the new row has the trimmed name and a coordinate exactly when one is given |
| AdressService.CreatedBodyShape | src/api/adress/adress.service.ts:22-28 | the created body carries a coordinate exactly when the request defined it, with the sent value, and the trimmed name |
| AdressService.UpdateOutcome | src/api/adress/adress.service.ts:31-41 | a missing row is NotFound, a `null` name throws, and otherwise the edited row is saved |
| AdressService.UpdatedFields | src/api/adress/adress.service.ts:35-37 | only defined fields change, the name trimmed; the id never does |
| AdressService.AdressService.Create | src/api/adress/adress.service.ts:20-29 | the new row is added under the generated id and the spread entity returned with status 201 |
| AdressService.AdressService.Update | src/api/adress/adress.service.ts:31-41 | the table and the reply follow the update outcome |
| Strings.TrimStart | src/api/client/client.service.ts:69 | the result is no longer than the input and does not start with white space |
| Strings.TrimStartIsSuffix | src/api/client/client.service.ts:69 | `trimStart` drops a white-space prefix and keeps the rest |
| Strings.TrimEnd | src/api/client/client.service.ts:69 | the result is no longer than the input and does not end with white space |
| Strings.TrimEndIsPrefix | src/api/client/client.service.ts:69 | `trimEnd` drops a white-space suffix and keeps the rest |
| Strings.Trim | src/api/client/client.service.ts:69 | `trim()` gives a trimmed string no longer than the input |
| Strings.TrimIsPaddedSlice | src/api/client/client.service.ts:69 | the trimmed string is a slice of the input with only white space around it |
| Strings.TrimStartOfPadded | src/api/client/client.service.ts:69 | leading white space before a non-blank start is exactly what `trimStart` drops |
| Strings.TrimEndOfPadded | src/api/client/client.service.ts:69 | trailing white space after a non-blank end is exactly what `trimEnd` drops |
| Strings.TrimOfPadded | src/api/client/client.service.ts:69 | trimming a trimmed core padded with white space gives the core back |
| Strings.TrimKeepsCharacters | src/api/client/client.service.ts:69 | every character of the trimmed string occurs in the input |
| Strings.TrimIdempotent | src/api/client/client.service.ts:151 | trimming twice is trimming once |
| Strings.Split | src/common/middleware/language.middleware.ts:28 | `split` on one character gives at least one piece, none holding the separator, and joining them gives the input back |
| Strings.SplitWithoutSeparator | src/common/middleware/language.middleware.ts:31 | a string without the separator is a single piece |
| Strings.SplitAtFirst | src/common/middleware/language.middleware.ts:31 | the first piece ends at the first separator |
| Strings.SplitWs | src/common/guard/auth.guard.ts:26 | `split(/\s+/)` gives at least one piece, none holding white space |
| Strings.SplitWsRebuilds | src/common/guard/auth.guard.ts:26 | interleaving the pieces with the white-space runs cut out gives the input back |
| Strings.SplitWsWord | src/common/guard/auth.guard.ts:26 | a word without white space is a single piece |
| Strings.SplitWsRunWord | src/common/guard/auth.guard.ts:26 | a leading white-space run gives an empty first piece, then the word |
| Strings.SplitWsTwoWords | src/common/guard/auth.guard.ts:26 | "word, run, word" splits into exactly the two words |
| Strings.StripOneLeadingSlash | src/infrastructure/upload/upload.util.ts:35 | `replace(/^\//, '')` drops one slash exactly when the string starts with one, otherwise nothing |
| Strings.StripLeadingSlashes | src/api/category/category.service.ts:27 | `replace(/^\/+/, '')` drops exactly the leading slashes: a suffix, the dropped prefix all slashes, the rest not starting with one |
| Json.Omit | src/api/client/client.service.ts:38-41 | the rest object of a destructuring has every key but the one taken out, with the same values |
| Common.Stored | src/api/client/client.service.ts:173 | a refused save leaves the table as it was; an accepted one sets exactly the saved row |

## Left out

- I/O is not modelled. The Redis and PostgreSQL drivers, the logger's text, geoip lookup and multer's disk storage (`ensureDir`, `randomName`) are replaced by maps, parameters or nothing.
- Pagination.WindowOf: `page` and `limit` are integers. The source takes JavaScript numbers, and a fractional page or limit (giving a fractional `skip`) is not modelled.
- Time is not modelled. Key expiry uses an explicit clock (`Store.now`), and `Date` values are day labels passed in. `createdAt`/`updatedAt` columns and ISO date rendering are left out.
- Randomness is not modelled. `randomInt` is a draw from an `entropy` parameter, and `randomUUID` and database-generated ids are method parameters with freshness preconditions.
- bcrypt is an ideal `Hasher`: `compare(x, hash(x))` holds and different secrets never match. Salting and timing are not modelled.
- JWT signing and verification are an abstract `JwtService` whose soundness is a predicate. Expiry clocks and secrets' contents are not modelled.
- Transactions and concurrency are not modelled. The operations run one after another, so races between a pre-check and an insert are outside the model. The one visible effect of isolation is kept: the body of a newly created elon or product is enriched outside its transaction, so it lists no photos.
- Foreign keys and database cascades are not modelled: photo rows of a deleted elon or product, and the market's `adressId` reference. The one exception is the `RESTRICT` keys on a category, which `CategoryService.CategoryService.Remove` takes as a set of referenced ids.
- Enrich.EnrichAll: photos come in the table's order, not `createdAt DESC`; the query ordering is left out.
- Enrich.CommentPart: only the comment's id and message count are modelled. The other loaded comment columns are not.
- The comment message-count query is a parameter: the `(id, count)` rows the SQL returns. The `messages` table is not modelled.
- `getDashboardStats` is left out except for the day buckets (`LastNDays`, `CountByDay`). The counting SQL is a parameter.
- `findAll`, `findOne`, `findAllAdmins`, `findOneAdmin` and the relation-loading `findOneById` overrides of the elon and product services are read-only queries over the same tables, and are left out.
- `clientSignIn`, `marketSignIn` and `adminSignIn` are `AuthCommon.SignIn` with their own lookup and projection; only the shared sign-in is modelled.
- `me` is `BaseService.FindOneById` on the account table and has no model of its own.
- `path.join` normalisation is not modelled. Disk paths are `process.cwd()` plus the stripped public path.
- The `long` and `lat` coordinates of an address are opaque `real` values; floating point is not modelled.
- DTO class-validator decorators are not modelled. Their shapes are datatypes, and `whitelist`/`forbidNonWhitelisted` filtering is assumed to have run, except that the model admits the undeclared keys listed above: the elon and product keys, the client `verifyToken` and the market `username`.
- `update-adress.dto.ts` is not part of this model; the update DTO is taken to be the create DTO with every field optional.
- SupCategoryService.UpdateOutcome: `update-sup-category.dto.ts` is not part of this model. The update's `categoryId` is taken to be left out or an id, as the `@IsUUID()` of the create DTO admits, so a `null` one is not modelled.
- ElonService.UpdateOutcome: the `price` column is `numeric(12,2)`, so PostgreSQL refuses a price that is not a number (SQLSTATE 22P02, answered with 500 "Database error"). The model stores any string.
- ElonService.ElonService.CreateForClient: the same `numeric(12,2)` price check at the insert is not modelled.
- CategoryService.CreateOutcome: the early BadRequest for a blank name happens before the `try`, so it removes no uploaded files, as in the code.
- BaseService: the generic service is modelled over rows as JSON objects. Entity classes, `repo.create` and column defaults are not modelled there.
- Controllers, modules, bootstrap and configuration parsing are not modelled. Configuration values such as the token lifetimes and the production flag are parameters.
