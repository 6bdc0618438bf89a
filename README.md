# A verified model of the node-express-es8 user API core

This project models the core of a small Express/Mongoose user API in Dafny.
It proves properties of that model. The parts modelled are:

- **Authorization.** The `handleJWT` decision (allow, 401 or 403) and the JWT verify callback that feeds it.
- **Routes.** The user router's table from method and path to guard and handler chain, and Express's walk over a chain: ordinary steps in order, four-parameter steps only as error handlers, and the application's 404 and error tail.
- **Read-through cache.** The `load` controller on top of a TTL key-value store.
- **User model.** The schema's setters, defaults and validators, the pre-save password hook, `transform`, the token claims, `get`, the login check and the duplicate-key translation.
- **Services.** The user service (create, update by merge, remove) and the auth service (token response, register, login).
- **Refresh tokens.** Their format and expiry.
- **Errors.** The error pipeline (`APIError`, `Handler`, `ConvertError`, `NotFound`, `RateLimitHandler`).

## How the model is shaped

- **One module per core source file.** Four support modules sit beside them:
  - `Wrappers`: `Option` and `Result`.
  - `Constants`: the status codes, roles and message strings of `src/utils/constants.js`.
  - `JsText`: the JavaScript string primitives the code relies on: `\s`, `\w`, `trim`, `toLowerCase` and `includes`.
  - `Http`: the request object and the ways a middleware can finish.
- **Objects updated in place are classes.**
  - A Mongoose user document is `UserModel.UserDoc`. Its properties are a `map`, because `Object.assign` can merge any key into it.
  - The users collection is `UserModel.UserCollection`: a `seq` of stored records in natural order, plus the fault a query currently meets.
  - The Redis store is `Cache.TtlStore`: a `map` from key to value and expiry time.
  - The refresh-token collection is `RefreshTokens.RefreshTokenStore`.
  - An `APIError` is `ApiErrors.APIError`, whose `status` and `message` `handleJWT` reassigns.
- **Each state-changing method is specified against a pure function.** Examples are `GetSpec`, `LoginCheck`, `SaveNewSpec`, `UpdatedAttrs`, `ReadEntry` and `Decide`. The properties are proved as lemmas about those functions.
- **Library calls and outside inputs are parameters.**
  - bcrypt hash and compare and JWT signing are function-valued parameters.
  - The 40 random bytes are a parameter.
  - The clock is an explicit `now` in seconds.
  - Store faults and Redis replies are inputs.
  - `ObjectId.isValid` on a string is the bson rule: twelve characters, or twenty-four hex digits.
  - A query by id compares ObjectIds, not strings: the id is cast to its twelve bytes first, so letter case in the hex digits does not matter.
  - A stored `_id` is held as its hex string, 24 lowercase digits, which is what `toString()` gives. New ids are generated in that form (a precondition of `new User`), and every collection keeps it (`UniqueKeys`). So comparing stored ids as strings, as `remove`, the `_id` index, `req.params.userId !== user._id.toString()` and the refresh-token prefix do, is comparing ObjectIds.
  - Every stored record also holds the defaulted paths `photo`, `role` and `active`, as `new User` fills them before the first save, so a loaded user always has a role.

## Findings

Nothing here was executed. Each row pairs a member that models the code as written with a corrected member that the rest of the model can use.

| source | as written | input that shows it | evidently intended | confidence | as-written member | corrected member |
|---|---|---|---|---|---|---|
| src/api/routes/user.js:16-184 | the `userId` parameter hook (`load`) runs before `Authorize(LOGGED_IN)` on every `/:userId` route | `GET /users/<any id>` with no token: `load` runs before the guard can answer 401. As written its cache miss calls the undefined `Get`, so `Handler` answers the TypeError with no status; with `User.get` as the loader it answers the lookup error (e.g. 404 'No record found') | authorise first, then load | not executed; the 404 outcome is reachable only once the loader is `User.get` (see `UserController.Load` under Left out) | UserRoutes.RefusedUserIdRequestStillRunsLoad | UserRoutes.GuardFirstRunsLoadOnlyWhenAllowed |
| src/api/controller/user.js:18-21 | a cache hit sets `req.locals = { data }`, but `get`, `update` and `remove` read `req.locals.user` | a second `GET /users/<id>` within an hour of a first one that cached the user: `get` throws a TypeError | a hit gives the handlers a user document, as a miss does | not executed; reachable once the loader is `User.get` (see `UserController.Load` under Left out) | UserController.Get | UserController.LoadRehydratingThenGet |
| src/api/controller/user.js:60-68 | `update` answers with the whole document | `PATCH /users/<id>` with body `{"name": "x"}` for a user with a password: the reply holds the password hash | answer `transform()`, as every other handler does | not executed | UserController.UpdateResponseShowsPassword | UserController.UpdateAnsweringTransform |
| src/middleware/auth.js:23 | `Authorize(ADMIN)` on `/` (src/api/routes/user.js:40-67) passes a string, so the role test is substring containment | a user whose role is "adm" or "" passes the guard of `POST /users` | the list `[ADMIN]`, as `Authorize()` defaults to a list | not executed; roles stored through the schema are only 'user' or 'admin', for which the guard is exact (AuthMiddleware.AdminGuardOnSchemaRoles) | AuthMiddleware.AdminGuardAdmitsSubstrings | AuthMiddleware.AdminListGuardIsExact |

Kept as written, with no corrected member, for the reason given:

- **`GET /users` lists no one.** Its last step, `load`, declares four parameters, so Express runs it only as an error handler. An admitted request ends at `NotFound`, 404 (`UserRoutes.AdmittedListUsersIsNotFound`). A refused one hands its error to `load` in place of the request (`UserRoutes.RefusedListUsersCallsLoadWithError`). The source has no list handler to correct to.
- **`update` never saves the merged document.** Which checks an update would run on saving is not written anywhere in the code, so there is no intended behaviour to model.
- **Cache keys can collide (`Cache.KeysCanCollide`).** The only caller, `load`, builds keys from the path alone, and those never collide (`UserController.LoadKeyIsPerPath`).

## Where the code and its description differ

The model follows the code in each of these, except the loader in the last one:

- **`UserService.UpdateUser` strips `role` based on the target.** It keeps or drops `role` according to the target record's role, not the acting user's.
- **`AuthService.Register` issues no refresh token.** It returns only `{token, user}`.
- **An unknown email at login is 404.**
- **A duplicate email is 404 `EMAIL_EXIST` with no field errors.**
- **A malformed id is 400 with location `'body or params'`.**
- **`load` calls an undefined `Get`.** `src/api/controller/user.js` imports `Get` from a service file that does not export it. The model's `load` uses `User.get` (`UserModel.Get`) instead; see `UserController.Load` under Left out.

## Model

| member | source | states |
|---|---|---|
| ApiErrors.Build | src/utils/APIError.js:11-25 | name is "APIError"; message and stack copied; errors defaults to [], status to 500 (INTERNAL_SERVER_ERROR), isPublic to false, each only when left out |
| ApiErrors.APIError.constructor | src/utils/APIError.js:11-25 | the new object's fields are exactly Build of the arguments |
| JsText.Trim | src/api/models/user.js:17-28 | the trim setter never lengthens its input and leaves no white space at either end |
| JsText.TrimStart | src/api/models/user.js:17-28 | drops exactly the leading white space: the result is a suffix of the input that starts with no white space |
| JsText.TrimEnd | src/api/models/user.js:17-28 | drops exactly the trailing white space: the result is a prefix of the input that ends with no white space |
| JsText.TrimIsSlice | src/api/models/user.js:17-28 | what trim returns occurs contiguously in the input, and everything before and after it is white space |
| JsText.TrimIdempotent | src/api/models/user.js:17-28 | trimming twice is trimming once |
| JsText.ToLower | src/api/models/user.js:21 | the lowercase setter maps every character through ASCII lowercasing and keeps the length |
| JsText.LowerOfConcat | src/api/models/user.js:21 | lowercasing distributes over concatenation |
| JsText.LowerOfLowerCase | src/api/models/user.js:21 | text without ASCII capitals is its own lowercase |
| JsText.IncludesIff | src/middleware/auth.js:23 | `includes` on a string holds iff the needle occurs at some index (both directions) |
| JsText.IncludesSelfAndEmpty | src/middleware/auth.js:23 | a string includes itself and the empty string |
| ErrorMiddleware.StripNonWord | src/middleware/error.js:36 | the message filter never lengthens its input and leaves only word or white-space characters |
| ErrorMiddleware.StripKeepsCleanText | src/middleware/error.js:36 | text made only of kept characters passes unchanged |
| ErrorMiddleware.StripIdempotent | src/middleware/error.js:36 | filtering twice is filtering once |
| ErrorMiddleware.StripConcat | src/middleware/error.js:36 | the filter distributes over concatenation |
| ErrorMiddleware.StripShortensIffDropped | src/middleware/error.js:36 | the output is as long as the input iff every character is kept |
| ErrorMiddleware.Converted | src/middleware/error.js:31-50 | an APIError is unchanged; a validation error becomes 'Validation Error' with status `err.status` if truthy else 400, and per entry location, `field[0]` (left out when `field` is empty) and the filtered `messages[0]`; any other error keeps message, status (undefined becomes 500) and stack, with errors [] |
| ErrorMiddleware.Handler | src/middleware/error.js:12-22 | status and code are err.status, message is err.message, errors err.errors; stack removed iff env is "production" |
| ErrorMiddleware.ConvertError | src/middleware/error.js:31-52 | when every validation entry has a message (otherwise it throws, see UserRoutes.AppTail), answers with a status and an errors list; an APIError goes to Handler unchanged; a validation error gets status `err.status` if truthy else 400, no stack, and exactly the converted entries, one per field error; other errors keep their message and get status or 500 and errors [] |
| ErrorMiddleware.ConvertedMessagesAreClean | src/middleware/error.js:34-38 | every converted validation message holds only word and white-space characters |
| ErrorMiddleware.NotFound | src/middleware/error.js:58-64 | 404 with message 'Resource Not Found' and errors [] |
| ErrorMiddleware.RateLimitHandler | src/middleware/error.js:70-76 | 429 with the rate-limit message and errors [] |
| UserModel.ApplySetter | src/api/models/user.js:17-28 | an email string becomes its lowercased, trimmed text and a name string its trimmed text; other paths and non-strings pass unchanged |
| UserModel.Instantiate | src/api/models/user.js:16-47 | `new User(body)` keeps exactly the schema paths of the body (through their setters) plus photo, role and active, which default to 'default.jpg', 'user' and true when absent |
| UserModel.EmailSetterNormalises | src/api/models/user.js:17-23 | a stored email has no ASCII capitals and no surrounding white space, and is the lowercased raw text with only white space removed from its ends |
| UserModel.ValidationFailures | src/api/models/user.js:16-47 | only email, name, role and password can fail validation |
| UserModel.ValidDocumentShape | src/api/models/user.js:33-42 | a valid document has email, name and password, a role among ROLES and a password of at least 8 characters |
| UserModel.HookedAttrs | src/api/models/user.js:49-58 | the pre-save hook replaces password by its hash iff password was modified; a non-string password makes bcrypt fail |
| UserModel.HookChangesOnlyPassword | src/api/models/user.js:49-58 | the hook keeps every other property and the key set |
| UserModel.PublicView | src/api/models/user.js:61-68 | transform has only id, name, email, photo, role and active, never password; id is the document id and every other value is the stored one |
| UserModel.NewUserPublicView | src/api/models/user.js:16-68 | a new user's transform shows all six public fields, with the schema defaults |
| UserModel.NewUserHasPublicFields | src/api/models/user.js:16-47 | `new User(body)` with an email and a name holds all five stored public fields |
| UserModel.PublicViewOfCompleteDoc | src/api/models/user.js:61-68 | transform of a document with all five fields shows all six, with photo, role and active copied |
| UserModel.AccessClaims | src/api/models/user.js:69-76 | sub is the id, iat is now, exp is now plus the interval in minutes |
| UserModel.UserDoc.constructor | src/api/models/user.js:16-47 | the new document, under a generated id of 24 lowercase hex digits, is Instantiate of the body, marked new, with the body's schema paths modified |
| UserModel.UserDoc.Hydrate | src/api/models/user.js:95 | a queried document holds the stored record, unmodified and not new |
| UserModel.UserDoc.Transform | src/api/models/user.js:61-68 | the field-by-field loop returns PublicView of the document |
| UserModel.UserDoc.HashPasswordHook | src/api/models/user.js:49-58 | the document's properties become HookedAttrs of the old ones, or stay as they were when the hook fails |
| UserModel.SaveNewSpec | src/api/models/user.js:16-58 | validation first, then the hook, then the unique indexes: a failing hook is the bcrypt error, a fault rejects the hooked document, a taken id or email is a duplicate-key error naming that index; a valid document meeting no fault and no taken key is inserted with its hooked properties, and only such a document is |
| UserModel.InsertKeepsUnique | src/api/models/user.js:20 | inserting what SaveNewSpec accepts, under a generated id and with the defaulted paths filled, keeps every record's id in its generated form, keeps `photo`, `role` and `active` in every record, and keeps ids and emails unique |
| UserModel.UniqueKeysMeansUniqueObjectIds | src/api/models/user.js:15-47 | no two stored records name the same ObjectId, as the `_id` index demands |
| UserModel.FirstWithIdIsObjectIdMatch | src/api/models/user.js:15-47 | for ids in their generated form, the first record with that id string is the first record with that ObjectId |
| UserModel.FirstWithId | src/api/models/user.js:15-47 | the first stored record whose `_id` string is a given document's, or none iff no record has it (the `_id` index on save and the deletion on remove) |
| UserModel.HexPairs | src/api/models/user.js:95 | hex digits of either case read in pairs, high nibble first, one value per pair |
| UserModel.HexPairsAt | src/api/models/user.js:95 | pair k of the hex digits is digit 2k times sixteen plus digit 2k+1 |
| UserModel.LowBytes | src/api/models/user.js:95 | a binary string gives one byte per character |
| UserModel.LowBytesAt | src/api/models/user.js:95 | byte k of a binary string is the low byte of character k |
| UserModel.IdKey | src/api/models/user.js:95 | ObjectIdBytes of a valid id (twelve bytes), the empty sequence for a string that does not cast |
| UserModel.ObjectIdBytes | src/api/models/user.js:95 | the twelve bytes a valid id is cast to: 24 hex digits of either case read in pairs, or the low byte of each of twelve characters |
| UserModel.ObjectIdIgnoresHexCase | src/api/models/user.js:95 | two 24-digit ids that differ only in letter case name the same ObjectId |
| UserModel.LowerHexIdsAreDistinct | src/api/models/user.js:95 | two lowercase 24-digit ids name the same ObjectId iff they are the same string |
| UserModel.FirstWithObjectId | src/api/models/user.js:95 | the first stored record whose `_id` is the ObjectId the id casts to, or none iff no record has it |
| UserModel.FirstWithObjectIdRespectsCast | src/api/models/user.js:95 | two ids naming the same ObjectId find the same record |
| UserModel.FirstWithEmail | src/api/models/user.js:102 | the first stored record with that email, or none iff no record has it |
| UserModel.IsValidObjectId | src/api/models/user.js:84 | any twelve-character string is valid; a 24-character string is valid iff it is all hex digits; no other length is valid |
| UserModel.UserCollection.FindById | src/api/models/user.js:95 | a malformed id is a cast error with no round trip; otherwise the fault, no record, or a fresh document of the first record whose `_id` is the ObjectId the id casts to, which holds `photo`, `role` and `active` |
| UserModel.UserCollection.FindOneByEmail | src/api/models/user.js:102 | the query email goes through the setter; the fault, no record, or a fresh document of the first match, which holds `photo`, `role` and `active` |
| UserModel.UserCollection.SaveNew | src/api/models/user.js:49-58 | for a document under a generated id with the defaulted paths filled (as `new User` leaves it), the store and document end as SaveNewSpec says, and uniqueness is kept |
| UserModel.UserCollection.Remove | src/api/service/user.js:33 | deletes the record with the document's id (no record with it remains) and keeps uniqueness |
| UserModel.WithoutIdKeepsUnique | src/api/service/user.js:33 | deletion keeps uniqueness and keeps exactly the records with other ids |
| UserModel.InvalidIdError | src/api/models/user.js:84-94 | 400, 'Validation Error', one entry {id, 'body or params', 'Please enter valid User ID'} |
| UserModel.NoRecordError | src/api/models/user.js:96 | 404 NO_RECORD_FOUND with no entries |
| UserModel.InvalidCredentialsError | src/api/models/user.js:106-108 | 400 INVALID_CREDENTIALS with no entries |
| UserModel.GetSpec | src/api/models/user.js:83-98 | a bad id is the 400 error; a valid id naming no stored ObjectId is 404; it succeeds iff the id is valid and names a stored record's ObjectId, with that record |
| UserModel.GetIgnoresIdSpelling | src/api/models/user.js:83-98 | two spellings of one ObjectId (upper and lower case, say) get the same answer from get |
| UserModel.Get | src/api/models/user.js:83-98 | settles as GetSpec, with one round trip only for a valid id |
| UserModel.LoginCheck | src/api/models/user.js:100-110 | a query fault is thrown; unknown email is 404; a wrong password for the matched user is 400; a matched user with a non-string password is the bcrypt error; a matching password gives that user's transform and a token signed over their claims |
| UserModel.ValidateUserAndGenerateToken | src/api/models/user.js:100-110 | one query, then exactly LoginCheck |
| UserModel.CheckDuplication | src/api/models/user.js:112-123 | only code 11000 from BulkWriteError or MongoError is translated; a name key wins ('Name already exist', 404) over an email key (EMAIL_EXIST, 404); neither key leaves the error unchanged |
| UserModel.CheckDuplicationIdempotent | src/api/models/user.js:112-123 | translating twice is translating once |
| UserModel.SaveErrorTranslation | src/api/models/user.js:112-123 | a taken email becomes EMAIL_EXIST; a taken id and any non-duplicate error pass unchanged |
| RefreshTokens.HexDigit | src/api/models/refresh-token.js:43 | each value below sixteen becomes a lowercase hex digit that reads back as that value |
| RefreshTokens.HexByte | src/api/models/refresh-token.js:43 | two hex digits per byte, high nibble first, that read back as the byte |
| RefreshTokens.Hex | src/api/models/refresh-token.js:43 | twice as many characters as bytes, all from 0-9a-f |
| RefreshTokens.HexRoundTrip | src/api/models/refresh-token.js:43 | the hex text reads back to the same bytes |
| RefreshTokens.TokenString | src/api/models/refresh-token.js:43 | the token is the id, a dot, then the hex of the bytes |
| RefreshTokens.TokenShape | src/api/models/refresh-token.js:43 | the suffix is 80 hex digits that decode to the bytes, and the text before the first dot is the id when the id has no dot |
| RefreshTokens.NewRecord | src/api/models/refresh-token.js:41-47 | the record holds the token, the user's id and email, and expires 30 days after now |
| RefreshTokens.Storable | src/api/models/refresh-token.js:9-28 | a record passes the schema only with a non-empty token, a userId string of 12 or 24 characters and a non-empty email |
| RefreshTokens.RefreshTokenStore.Generate | src/api/models/refresh-token.js:41-50 | returns the record's token whether or not the write succeeds; the record is stored only if it passes the schema and the store accepts it |
| Cache.GenerateKey | src/utils/cache.js:11 | the key is "API-" + path + "-" + param + "-" + query |
| Cache.ArgText | src/utils/cache.js:22 | an omitted param or query renders as "0" |
| Cache.KeyDeterminesPath | src/utils/cache.js:11 | for the same param and query, equal keys mean equal paths |
| Cache.KeysCanCollide | src/utils/cache.js:11 | a dash in the path can stand for the separator, so different parts can give one key |
| Cache.ReadEntry | src/utils/cache.js:36-39 | a value is read iff the key is present and unexpired; absent or expired reads as null |
| Cache.ReadAfterWrite | src/utils/cache.js:22-39 | a value written at t with TTL 3600 is read during [t, t+3600), gone afterwards, and other keys are unaffected |
| Cache.TtlStore.SetEx | src/utils/cache.js:24 | the entry is written with expiry now+ttl iff the store replies "OK"; a store error is returned |
| Cache.TtlStore.Get | src/utils/cache.js:38 | returns the live value or none, or the store's error |
| Cache.CreateCache | src/utils/cache.js:22-26 | writes the data under the key with TTL 3600 iff the reply is 'OK'; returns true iff the reply is 'OK', false for other replies, throws only on a store error |
| Cache.GetCache | src/utils/cache.js:36-40 | returns the live value under the key or none (JSON.parse(null)), or throws the store's error |
| Http.DocumentJson | src/api/controller/user.js:64 | the JSON of a whole document has exactly the stored properties plus `_id`, holding the id and every stored value |
| Passport.Jwt | src/config/passport.js:20-28 | looks up exactly payload.sub, cast to an ObjectId; a found user is done(null, user), no record is done(null, false), a lookup error is done(err, false) |
| AuthMiddleware.RoleIncludes | src/middleware/auth.js:23 | on a string, substring containment of the role's string form; on an array, membership |
| AuthMiddleware.FailureMessage | src/middleware/auth.js:8-13 | the message of err, else of info, else 'Unauthorized' |
| AuthMiddleware.FailureStack | src/middleware/auth.js:8-13 | the stack of err, else of info, else none |
| AuthMiddleware.Decide | src/middleware/auth.js:7-32 | an error or a missing user is exactly the 401 rejections; every other rejection is 403 'Forbidden'; allow only with a user and no error |
| AuthMiddleware.RejectionError | src/middleware/auth.js:10-26 | the APIError passed to next carries the decision's status, message and stack |
| AuthMiddleware.UnauthenticatedIs401 | src/middleware/auth.js:8-16 | an error or no user is 401 with the message and stack of err, else info, else 'Unauthorized' |
| AuthMiddleware.InfoDoesNotBlockUser | src/middleware/auth.js:8-15 | with a user and no error, info never decides allow or reject |
| AuthMiddleware.LoggedInRule | src/middleware/auth.js:17-22 | LOGGED_IN: admins pass for any userId; others pass iff userId is their id, else 403 'Forbidden' |
| AuthMiddleware.RolesRule | src/middleware/auth.js:23-27 | any other declaration passes iff it includes the role, else 403 'Forbidden' |
| AuthMiddleware.AdminGuardOnSchemaRoles | src/middleware/auth.js:23 | among the schema roles, the string guard 'admin' admits exactly 'admin' |
| AuthMiddleware.AdminListGuardIsExact | src/middleware/auth.js:23 | the guard written as the list ['admin'] admits a user iff their role is exactly 'admin' |
| AuthMiddleware.AdminGuardAdmitsSubstrings | src/middleware/auth.js:23 | roles 'adm' and '' pass the string guard 'admin' |
| AuthMiddleware.AdminGuardRefusesMissingRole | src/middleware/auth.js:23 | a user without a role is refused by the string guard |
| AuthMiddleware.DefaultRolesAdmitSchemaRoles | src/middleware/auth.js:34 | Authorize() admits a user iff their role is one of ROLES |
| AuthMiddleware.HandleJwt | src/middleware/auth.js:7-32 | on allow, next() with req.user set to the user; on reject, next(err) carrying the decision's status, message and stack, with req.user untouched |
| UserService.CreateUser | src/api/service/user.js:8-16 | returns the saved user's transform, or the save error through checkDuplication; the store grows by exactly the saved record |
| UserService.TakenEmailIsEmailExist | src/api/service/user.js:8-16 | an otherwise valid user with a taken email is reported as EMAIL_EXIST, 404 |
| UserService.StrippedKey | src/api/service/user.js:24 | the dropped key is '' iff the target's role is 'admin', else 'role' |
| UserService.Omit | src/api/service/user.js:25 | removes exactly the named key |
| UserService.Merge | src/api/service/user.js:26 | schema paths of the update overwrite (through their setters); everything else keeps its value |
| UserService.UpdatedAttrs | src/api/service/user.js:24-26 | the keys are the old keys plus the schema keys of the body (role only for an admin target); taken keys hold the setter's value, all other keys are unchanged |
| UserService.NonAdminKeepsRole | src/api/service/user.js:24-26 | a non-admin target keeps its role, so an update cannot promote it |
| UserService.AdminTakesEveryKey | src/api/service/user.js:24-26 | an admin target takes every schema key of the body, role included |
| UserService.MergeOverwritesAndKeeps | src/api/service/user.js:26 | body keys overwrite; keys absent from the body keep their old values |
| UserService.UpdateUser | src/api/service/user.js:22-31 | mutates and returns the same document to UpdatedAttrs, never saves; a missing user throws a TypeError through checkDuplication |
| UserService.RemoveUser | src/api/service/user.js:33 | delegates to remove; a missing user throws a TypeError |
| AuthService.GenerateTokenResponse | src/api/service/auth.js:14-21 | tokenType 'Bearer', the given access token, the refresh token generate returned, expiresIn now plus the interval |
| AuthService.Register | src/api/service/auth.js:35-43 | success is the new document's token and the saved user's transform; failure throws checkDuplication of the error |
| AuthService.Login | src/api/service/auth.js:56-60 | a failed check propagates and writes no refresh token; success is the token response for the checked user and that user |
| AuthService.LoginTokensNameTheUser | src/api/service/auth.js:56-60 | after login the access token is for the matched user, expiresIn is its exp, and the refresh token starts with that user's id |
| AuthService.RefreshTokenNamesDoc | src/api/models/refresh-token.js:41-45 | the refresh token for a user's transform is that user's id, a dot and the hex; an id without a dot is recovered from it |
| UserController.LoadKey | src/api/controller/user.js:17 | the key is the path with "[object Object]" and the default "0" |
| UserController.LoadKeyIsPerPath | src/api/controller/user.js:17 | two loads share a key iff their paths are equal; query and params never matter |
| UserController.Load | src/api/controller/user.js:15-29 | a hit sets {data} and calls next without a query or a write; a miss calls get once, sets {user} and caches it under the path; any error goes to Handler and next is not called; a failing get writes nothing |
| UserController.LoadRehydrating | src/api/controller/user.js:15-29 | as Load, except that a cache hit leaves a fresh user document holding the cached record in req.locals.user |
| UserController.LoadRehydratingThenGet | src/api/controller/user.js:15-35 | with that loader, a cache hit answers the cached record's transform, as a successful lookup answers the stored record's |
| UserController.Get | src/api/controller/user.js:35 | answers the transform of req.locals.user; after a cache hit it throws |
| UserController.LoggedIn | src/api/controller/user.js:41 | answers the transform of req.user |
| UserController.Create | src/api/controller/user.js:47-54 | 201 with {data, success: 'SUCCESS'}, or next(err) |
| UserController.Update | src/api/controller/user.js:60-68 | merges the body into req.locals.user and answers with the whole document |
| UserController.UpdateAnsweringTransform | src/api/controller/user.js:60-68 | the same merge, answered with the transform, which never holds password |
| UserController.UpdateResponseShowsPassword | src/api/controller/user.js:60-68 | the update response carries the stored password |
| UserController.Remove | src/api/controller/user.js:88-96 | 203 after the record is deleted, else next(err) |
| UserRoutes.MatchPath | src/api/routes/user.js:16-186 | `/:userId` binds exactly a one-segment path, and binds it to that segment; any other pattern matches a path iff the two agree ignoring ASCII letter case, binding nothing |
| UserRoutes.Dispatch | src/api/routes/user.js:18-186 | picks a registered route of that method whose pattern matches, or none when no route matches |
| UserRoutes.Pipeline | src/api/routes/user.js:16-186 | a request has a pipeline iff some route of its method matches its path |
| UserRoutes.PipelineOf | src/api/routes/user.js:16 | a pipeline exists iff a route was dispatched |
| UserRoutes.DispatchFirst | src/api/routes/user.js:18-186 | the first matching route in registration order wins |
| UserRoutes.RouteTable | src/api/routes/user.js:40-186 | the method and pattern of each of the eight routes, in registration order |
| UserRoutes.RootPatternMatchesOnlyRoot | src/api/routes/user.js:18 | the pattern `/` takes no path of two or more characters |
| UserRoutes.LiteralSegmentMatch | src/api/routes/user.js:69-186 | a lower-case literal pattern `/name` takes `/id` iff id lowercases to name |
| UserRoutes.ProfileRouteMatch | src/api/routes/user.js:69 | the /profile route takes `/id` iff id lowercases to "profile", binding nothing |
| UserRoutes.UploadRouteMatch | src/api/routes/user.js:186 | the /upload route takes its own path, binding nothing |
| UserRoutes.OnlyRootRoutesMatchRoot | src/api/routes/user.js:18-186 | of the GET routes only `/` takes the path `/` |
| UserRoutes.UserIdRoute | src/api/routes/user.js:90-184 | each of GET, PUT, PATCH and DELETE has its /:userId route at index 3 to 6 |
| UserRoutes.EarlierRoutesMiss | src/api/routes/user.js:18-90 | no route of that method registered before its /:userId route takes `/id`, when id is one segment (not `profile` for GET) |
| UserRoutes.EarlierGetRoutesMiss | src/api/routes/user.js:18-88 | neither `/` nor `/profile` takes `/id` unless id lowercases to "profile" |
| UserRoutes.UserIdDispatch | src/api/routes/user.js:90-184 | such a path is dispatched to that method's /:userId route with userId bound to the segment |
| UserRoutes.UserIdPipeline | src/api/routes/user.js:16-184 | its pipeline is the load hook followed by that route's chain |
| UserRoutes.UserIdChain | src/api/routes/user.js:111-184 | each /:userId chain starts with Authorize(LOGGED_IN) and has no four-parameter step |
| UserRoutes.PipelineOfRoute | src/api/routes/user.js:16 | a dispatched route runs its chain, after `load` exactly when `userId` is bound |
| UserRoutes.RootIsAdminOnly | src/api/routes/user.js:40-67 | GET / runs Authorize('admin'), Validate, then the four-parameter `load`; POST / runs Authorize('admin'), Validate, then `create` |
| UserRoutes.ProfileUsesDefaultRoles | src/api/routes/user.js:88-90 | GET /profile, in any letter case, runs Authorize() with the default roles and then `loggedIn`, ahead of /:userId |
| UserRoutes.UserIdRoutesRunLoadThenLoggedIn | src/api/routes/user.js:16-184 | on every /:userId route (for GET, any segment but `profile` in any case), the userId hook (load) runs first and Authorize(LOGGED_IN) next, and no step of the pipeline is a four-parameter handler |
| UserRoutes.UploadIsUnguarded | src/api/routes/user.js:186 | POST /upload runs only the upload middleware and handler |
| UserRoutes.ValidateBetweenGuardAndHandler | src/api/routes/user.js:40-167 | in every route's chain each Validate sits right after a guard and right before a controller handler |
| UserRoutes.UserRoleCannotCreate | src/api/routes/user.js:67 | a caller with role 'user' on POST / gets 403 'Forbidden' |
| UserRoutes.RunChain | src/api/routes/user.js:16-186 | only ordinary steps run, in order; a walk answers at a step whose run responded; a four-parameter step is reached only with an error pending, as the error handler |
| UserRoutes.AppTail | src/config/express.js:62-68 | after the routers, a fall-through is NotFound's 404; a pending error goes to ConvertError, so an APIError reaches Handler unchanged, and every such answer has a status and an errors list; a validation error with an entry without a message makes ConvertError throw a TypeError, which ErrorHandler (Handler) answers with no status and no errors list; nothing is answered when a step inside the router already answered or took the error |
| UserRoutes.PendingErrorFallsThrough | src/api/routes/user.js:16-186 | with an error pending and no four-parameter step left, nothing more runs and the error leaves the router |
| UserRoutes.ListUsersChain | src/api/routes/user.js:40 | the GET / chain is the guard, the validator and the four-parameter `load` |
| UserRoutes.PassingStepsSkipLastHandler | src/api/routes/user.js:40 | two passing ordinary steps before a four-parameter one: both run, it is skipped, and the walk falls through |
| UserRoutes.ErrorReachesLastHandler | src/api/routes/user.js:40 | an error from either ordinary step is handed to the four-parameter step |
| UserRoutes.AdmittedListUsersIsNotFound | src/api/routes/user.js:40 | an admitted, valid GET / runs the guard and the validator, skips `load`, matches no later route, and the application answers 404 'Resource Not Found' |
| UserRoutes.RefusedListUsersCallsLoadWithError | src/api/routes/user.js:40 | a refused or invalid GET / calls `load` as the error handler with that error |
| UserRoutes.HookThenRefusingGuard | src/api/routes/user.js:16-184 | a passing hook followed by a refusing guard: both ran and the guard's error leaves the router |
| UserRoutes.RefusedUserIdRequestStillRunsLoad | src/api/routes/user.js:16-184 | on /:userId a request that load answers is answered before the guard runs, and one the guard refuses has already run load |
| UserRoutes.GuardFirst | src/api/routes/user.js:16-184 | the guard moved ahead of the hook: a permutation of the pipeline that swaps exactly its first two steps |
| UserRoutes.GuardFirstWalk | src/api/routes/user.js:16-184 | with the first two steps swapped, a refusing guard ends the walk before the hook, and a passing one is followed by it |
| UserRoutes.GuardFirstRunsLoadOnlyWhenAllowed | src/api/routes/user.js:16-184 | with the guard first, every /:userId pipeline runs load only after Authorize(LOGGED_IN) admits the request |

## Left out

- Process and I/O wiring is not part of this model: server start-up, Express and Mongoose configuration, the Redis connection, logging and environment loading.
- `src/utils/upload.js`, the upload controller and the PUT replace handler are not part of this model. Replace and upload delegate to service functions that the service file does not define.
- The rate limiter's counting belongs to express-rate-limit and is not modelled. Only the response `RateLimitHandler` sends is.
- The Joi request schemas and express-validation are not modelled. A `Validate` step is a named placeholder in the route table.
- bcrypt, JWT signing and verification, Bearer-header extraction and `crypto.randomBytes` are opaque parameters. JSON serialisation is taken to round-trip exactly.
- Concurrency, real Redis TTL expiry, un-awaited promises and event ordering are not modelled. Requests run one at a time, each at a given `now`.
- `UserModel.AccessClaims`: does not model the two clock readings in `token()`, because one `now` is used for both `iat` and `exp`.
- `RefreshTokens.NewRecord`: does not model daylight-saving shifts in `moment().add(30, 'days')`. Thirty days is taken as 2592000 seconds.
- `AuthService.GenerateTokenResponse`: `expiresIn` is a number of seconds, not the moment object that the source serialises as a date string.
- Mongoose type casting of mismatched values is not modelled. A boolean given for a string path is kept as it is. A client-supplied `_id` in a body is not modelled either: ids are always generated.
- Change tracking after `Object.assign` is not modelled, because `UpdateUser` never saves.
- `UserModel.ValidationFailures` reports which paths fail, while Mongoose's error message text is only "users validation failed".
- Node's exact TypeError wording is not modelled.
- `res.status(undefined)` for a non-API error reaching `Handler` is kept as a missing status. What Node then sends is not modelled.
- `UserModel.IsValidObjectId` follows the string rule of the bson library. Other input types are not modelled.
- Trailing slashes, URL decoding and HEAD requests in Express route matching are not modelled. Letter case is: a router matches case-insensitively by default.
- `UserController.Load`: as written, every cache miss calls the undefined `Get`, throws a TypeError ("Get is not a function") to `Handler`, and caches nothing. The model looks the user up with `User.get` (`UserModel.Get`) instead, so that the rest of `load` can be stated.
- `UserRoutes.RunChain`: where `load` is called as an error handler on `GET /`, its arguments are shifted: the error arrives as `req` and the request as `res`. The model ends the walk at that call and does not model what `load` then does.
- `JsText.ToLower`: lowercases ASCII letters only. JavaScript's `toLowerCase` maps all of Unicode, so the model keeps the email "É@x.io" distinct from "é@x.io".
- `UserModel.ValidationFailures`: the password's `minlength` of 8 counts Unicode code points here. JavaScript counts UTF-16 code units, so a character outside the Basic Multilingual Plane counts as two there.
- `UserModel.IsValidObjectId`: the lengths 12 and 24 are likewise counted in code points, not UTF-16 code units.
- `UserModel.ObjectIdBytes`: a twelve-character id is read as a binary string, the low byte of each character, as the bson 1.x serializer writes it; later bson versions encode it as UTF-8 instead.
- `UserModel.FirstWithId`: the `_id` index on save and the deletion on remove compare id strings. Both sides are ids of documents, held as 24 lowercase hex digits (`UserModel.UniqueKeys`, and a precondition of `new User`), and for those the string match is the ObjectId match (`UserModel.FirstWithIdIsObjectIdMatch`).
- `UserModel.UserDoc.Hydrate`: does not apply Mongoose's load-time defaults. Every record the model stores already holds `photo`, `role` and `active` (`UserModel.UniqueKeys`), because only documents built by `new User`, which fills them, are saved; records written to the collection by other programs without those paths are not modelled.
- `UserService.CreateUser`, `AuthService.Register`, `UserController.Create`: the generated id is a parameter required to be 24 lowercase hex digits; how ObjectIds are generated (time, counter, random part) is not modelled.
- `Http.DocumentJson`: does not model the `createdAt` and `updatedAt` fields of the schema's timestamps option, nor Mongoose's `__v` version key.
