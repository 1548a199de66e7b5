# Airbnb clone: listing and account bookkeeping in Dafny

This project models the server side of a small home-rental application (Express
handlers over a document store) together with the pure helpers and client-side
form logic around it, and proves properties of that model.

What is modelled:

- **The store.** `State.Db` holds the users collection, the homes collection and
  the set of file names in the uploads directory. `State.Session` is the
  requesting client's session: the login flag and the stored user object.
- **Handlers.** Each handler is one `method` that runs as a single atomic step
  over that state. Its `modifies` clause names the collections it may write.
  Each handler's result is a `Response`: a status code with a JSON body, or a
  rendered page.
  - Bookings and favourites: add and remove the session user's ids.
  - Listings: index, detail page, and the bookings/favourites lists with
    `populate`.
  - Hosts: add, edit and delete a home, including its stored files and the pull
    of its id from every user.
  - Accounts: current user, profile update, login, logout and signup.
- **Pure helpers.** These are functions: the public home and user views, the
  upload filter, and the client's user clean-up.
- **JavaScript built-ins the code relies on.** Each is written out with its
  semantics: truthiness as JavaScript's table of falsy values. Each of `trim`,
  the e-mail regular expression, `split(c)[0]`, `includes`, `path.basename`,
  base64 (RFC 4648 section 4) and data URLs (RFC 2397 section 3) also has a
  proved characterisation or round trip.
- **bcrypt.** A checkable stand-in pair `Hash`/`Compare` with
  `Compare(p, Hash(p, salt))`. The digest depends on the key bcrypt's key
  schedule reads: the password with a NUL appended, read cyclically for 72 units. The salt is passed in, because the real salt is
  random.
- **Client.** The sign-up page (field validation, submit gate, FormData encoding)
  and the contact page (ordered checks, simulated send) are classes over their
  React state. So is the context provider with its lists and switches.

Where the code and its evident intent disagree, the model follows the code,
except for the corrected members named under "## Findings":

- `postSignup` never writes the session, so a new user is not logged in.
- A profile update overwrites the picture buffer stored in the user document.
  No file is deleted.
- Editing a home assigns all five scalar fields, which makes it a full replace
  rather than a patch.
- `postDeleteHome` with an unknown id answers 404, but the promise chain still
  runs the `$pull` from every user.

On the client, the sign-up FormData always carries a `photo` entry. When no photo
was picked, `formData.append("photo", null)` sends the string "null"
(`SignupPage.EncodedForm`).

The listing views (`getIndex`, `getBookingsList`, `getFavouriteList`,
`getHomeDetails`) read `home.photo`. No handler here writes that field: the host
handlers write `photos`. So a home they create always shows a null `photoUrl`
(`HostController.NewHomeHasNoPhotoUrl`). The home schema is not part of this
model, so this is recorded as an observation, not a finding.

## Model

| member | source | states |
|---|---|---|
| StoreController.PhotoUrl | backend/controllers/storeController.js:18 | null exactly when `photo` is missing or empty; otherwise "/uploads/" followed by a name with no '/' |
| StoreController.PhotoUrlOfPath | backend/controllers/storeController.js:18 | a stored path "dir/name" and a bare name both give "/uploads/name" |
| StoreController.ListingView | backend/controllers/storeController.js:10-20 | exactly seven keys: `_id`, the five scalars copied unchanged, and `photoUrl` |
| StoreController.Populated | backend/controllers/storeController.js:46 | `populate` keeps, in list order, exactly the ids whose home still exists |
| StoreController.ListingsAllPresent | backend/controllers/storeController.js:47-57 | when every id resolves, one view per id, in the same order |
| StoreController.GetIndex | backend/controllers/storeController.js:7-22 | status 200; one view per home; every home appears; item i is the view of the i-th home in collection order |
| StoreController.NoDupCoverSize | backend/controllers/storeController.js:8-10 | a duplicate-free enumeration of the homes has one entry per home |
| StoreController.GetList | backend/controllers/storeController.js:40-86 | 401 without a session user; 500 when the user is gone; else 200 with the populated views of that list |
| StoreController.AddTo | backend/controllers/storeController.js:96-99 | an id already listed leaves the user unchanged; an absent id is appended at the end |
| StoreController.RemoveFrom | backend/controllers/storeController.js:132-135 | the `includes` guard plus `filter` equals an unconditional removal of every occurrence |
| StoreController.AddToProperties | backend/controllers/storeController.js:96-99 | adding keeps the lists duplicate-free and is idempotent |
| StoreController.RemoveFromProperties | backend/controllers/storeController.js:132-135 | the id is gone; every other id keeps its count; an absent id changes nothing; no duplicates appear |
| StoreController.ChangeList | backend/controllers/storeController.js:88-158 | shared body: 401 or 500 change no user; otherwise only the session user's one list changes |
| StoreController.PostAddToBooking | backend/controllers/storeController.js:88-104 | 401 or 500 leave every user unchanged; success changes only `bookings` of the session user, by `AddTo` |
| StoreController.PostAddToFavourite | backend/controllers/storeController.js:106-122 | the same rule on `favourites` only |
| StoreController.PostRemoveFromBooking | backend/controllers/storeController.js:124-140 | 401 or 500 leave every user unchanged; success removes the id from `bookings` only |
| StoreController.PostRemoveFromFavourite | backend/controllers/storeController.js:142-158 | the same rule on `favourites` only |
| StoreController.GetHomeDetails | backend/controllers/storeController.js:160-192 | 404 exactly for an unknown id; the JSON view when Accept includes "application/json"; otherwise the detail page |
| HostController.Removed | backend/controllers/hostController.js:8-14 | a missing or empty name leaves the file set as it was; otherwise only that name goes |
| HostController.DeleteFile | backend/controllers/hostController.js:8-14 | the uploads directory afterwards is `Removed(old, name)` |
| HostController.FirstName | backend/controllers/hostController.js:127-130 | no kept upload gives null; otherwise the first kept upload's name |
| HostController.NewHomeHasNoPhotoUrl | backend/controllers/storeController.js:18 | a home built by the host handlers has a null `photoUrl` in every listing view |
| HostController.PostAddHome | backend/controllers/hostController.js:17-35 | no file gives 422 and no home is saved; a taken id gives 500; otherwise 201 and exactly one new home |
| HostController.PostAddHomeApi | backend/controllers/hostController.js:124-146 | never 422; each file field is the first upload the filter kept, or null |
| HostController.EditIsFullReplace | backend/controllers/hostController.js:45-49 | after an edit the scalars do not depend on what the home held before; the file references are untouched |
| HostController.PostEditHome | backend/controllers/hostController.js:38-60 | an unknown id gives 404 and changes no home and no file; otherwise the five scalars are assigned; a new photo deletes the old file and replaces the reference |
| HostController.EditHomeApi | backend/controllers/hostController.js:93-121 | the same for the photo and the rules PDF, each replaced only when an upload of its kind was kept |
| HostController.PullAll | backend/controllers/hostController.js:75-77 | the same users, each one pulled |
| HostController.PullAllProperties | backend/controllers/hostController.js:75-77 | no user lists the id afterwards; other ids keep their counts; no duplicates appear; no other field changes |
| HostController.PostDeleteHome | backend/controllers/hostController.js:63-80 | a known home loses its two files and its record, with 200; an unknown id gives 404 with no file or home touched; the pull runs in both cases |
| HostController.Send | backend/controllers/hostController.js:58-59 | a second `res.json` throws and leaves the response already sent in place |
| HostController.AsWrittenNotFoundRejects | backend/controllers/hostController.js:43-59 | as written, after a 404 both later sends throw, so the request ends with an unhandled rejection; a found home settles cleanly |
| HostController.CorrectedChainSettles | backend/controllers/hostController.js:66-79 | as corrected, no rejection is left behind, and the client receives the same response as from the chain as written |
| AuthController.PublicObject | backend/controllers/authController.js:9 | `toObject()` of a document selected without `password` |
| AuthController.CurrentUserView | backend/controllers/authController.js:13-18 | no `password`; `profilePic` present exactly with a picture, as its data URL; every other key of the document kept with its value, and no key added |
| AuthController.LoginView | backend/controllers/authController.js:83-94 | neither `password` nor `profilePicMimeType`; `profilePic` as a data URL when there is a picture; every other key of the document kept with its value, and no key added |
| AuthController.AvatarUrlRoundTrip | backend/controllers/authController.js:14-18 | parsing the data URL in either view gives back the stored bytes and media type |
| AuthController.Snapshot | backend/controllers/authController.js:107-114 | exactly `_id`, firstName, lastName, email, userType and city, with no `password` |
| AuthController.SnapshotFindsUser | backend/controllers/authController.js:106-114 | the snapshot a login stores leads `findById` back to the same user |
| AuthController.GetCurrentUser | backend/controllers/authController.js:5-22 | `{user: null}` when not logged in; 404 when the session's user is gone; else the password-free view |
| AuthController.Provided | backend/controllers/authController.js:43-48 | a field is replaced exactly when the sent value is not undefined |
| AuthController.Patched | backend/controllers/authController.js:43-55 | each of the six fields is replaced only when sent; the hash changes only for a truthy password; a kept file replaces the picture and its type together; the lists stay |
| AuthController.PatchedProperties | backend/controllers/authController.js:43-55 | an empty form changes nothing; a blank password keeps the old hash; a non-empty one is hashed and accepted by `Compare` |
| AuthController.UpdateUserProfile | backend/controllers/authController.js:28-66 | 401 or 404 change nothing; a non-string password fails with 500 and changes nothing; otherwise the patched user is stored and the session gets its snapshot; no user lists an id twice before or after (`Db.Valid`) |
| AuthController.PostLogin | backend/controllers/authController.js:69-128 | no user the email query selects (a string email is compared with stored emails; any other value selects the users the driver finds for it): 422 "User does not exist"; a non-string password: 500; no selected user's hash accepts the password: 422 "Invalid Password"; a string password with some selected user always gives 422 "Invalid Password" or 200, whichever the first user found decides; none of these touches the session; success sets `isLoggedIn` and the snapshot of a matching user whose hash accepts the password |
| AuthController.PostLogout | backend/controllers/authController.js:136-145 | the session is logged out and empty |
| AuthController.PostSignup | backend/controllers/authController.js:147-179 | missing email or password: 422 before any lookup; an email query that selects a user (by equality for a string, by the driver for an operator object): 422 and no new user; otherwise the stored password is the hash of the plaintext; the session is never touched; no user lists an id twice before or after (`Db.Valid`) |
| AuthController.SignupThenLoginMatches | backend/controllers/authController.js:158-170 | after signup the new user is the only one the email query selects; its hash accepts exactly the passwords with the same key stream as its own (see `Bcrypt.CompareHash`) |
| AuthController.SignupLoginLogout | backend/controllers/authController.js:69-180 | signup then login succeeds with a password-free answer; after logout the current user is null |
| AuthController.AsWrittenBodiesCarryHash | backend/controllers/authController.js:59-63 | as written, the update and signup answers and the session after an update all carry the stored hash |
| AuthController.CorrectedBodiesHideHash | backend/controllers/authController.js:176 | as corrected, neither answer nor the session holds the hash; every other key is as written |
| Bcrypt.Hash | backend/controllers/authController.js:163 | the digest is accepted by `Compare`; it has a fixed length and differs from any password of another length |
| Bcrypt.CompareHash | backend/controllers/authController.js:77-80 | a digest accepts exactly the passwords whose key stream (the password and a NUL, read cyclically for 72 units) equals that of the password it was made from |
| Bcrypt.CompareHashShort | backend/controllers/authController.js:77-80 | for passwords of up to 72 units without NUL, a digest accepts exactly its own password |
| Bcrypt.SignificantInjective | backend/controllers/authController.js:77-80 | two NUL-free passwords of up to 72 units with the same key stream are equal |
| Bcrypt.NulRepeatCollides | backend/controllers/authController.js:77-80 | a digest of "ab" also accepts "ab\0ab", whose cyclic key stream is the same |
| Bcrypt.LongPasswordsCollide | backend/controllers/authController.js:77-80 | a 73-unit password's digest also accepts a different password with the same first 72 units |
| SafeHome.BaseUrl | backend/utils/safeHome.js:4-9 | "" outside production; "protocol://host" in production |
| SafeHome.BaseUrlIgnoresBackendUrl | backend/utils/safeHome.js:4-9 | BACKEND_URL and PORT never change the base URL: the third branch is unreachable |
| SafeHome.UploadUrl | backend/utils/safeHome.js:18-21 | null exactly when the name is missing or empty; otherwise base + "/uploads/" + name |
| SafeHome.BuildSafeHome | backend/utils/safeHome.js:3-23 | exactly eight keys; six copied unchanged; both file fields are upload URLs |
| SafeHome.DevelopmentUrls | backend/utils/safeHome.js:4-6 | outside production both URLs are "/uploads/name", or null |
| SafeHome.ProductionUrls | backend/utils/safeHome.js:7-9 | in production the photo URL is absolute on the requesting host |
| BackendSafeUser.BuildSafeUser | backend/utils/safeUser.js:2-11 | null exactly for a falsy user; otherwise exactly six keys, each copied unchanged |
| BackendSafeUser.DropsPassword | backend/utils/safeUser.js:4-11 | neither `password` nor `city` nor any other key appears |
| ClientSafeUser.BuildSafeUser | frontend/src/utils/safeUser.js:1-15 | null input gives null; a TypeError exactly when both names are falsy and the email is not a string |
| ClientSafeUser.BuildSafeUserFields | frontend/src/utils/safeUser.js:4-12 | no `password`; `profilePic` kept when truthy, else null; names kept when either is truthy; otherwise firstName is the email before its first "@", or all of it; every other key copied |
| MulterConfig.FileFilter | backend/config/multerConfig.js:6-13 | the callback's error argument is always null |
| MulterConfig.CrossedTypesRejected | backend/config/multerConfig.js:7-11 | a PDF outside `rulesFile` and an image under `rulesFile` are refused; only four media types are ever accepted |
| State.SessionUserId | backend/controllers/storeController.js:93-95 | the user `findById(req.session.user._id)` finds, if any |
| State.Accepted | backend/routes/hostRouter.js:13-20 | the uploads of one field that passed the filter, in upload order |
| State.AcceptedTypes | backend/config/multerConfig.js:6-13 | a `rulesFile` upload reaches the handler exactly when it is a PDF, a `photo` upload exactly when it is a PNG or JPEG image; the batches hold nothing else |
| State.Single | backend/routes/authRouter.js:14 | the file is kept exactly when the filter accepts its type |
| Models.UserObject | backend/controllers/authController.js:13 | the keys of `toObject()`: id, hash and lists always, every other field only when the document has it |
| Models.ObjectKeysFacts | backend/controllers/authController.js:83-88 | `password` is always a key; the picture keys are present exactly when there is a picture |
| Lists.Filter | frontend/src/context/AppContext.jsx:21 | the result holds exactly the kept elements of the input |
| Lists.FilterAppend | frontend/src/context/AppContext.jsx:21 | filtering distributes over concatenation, so order is kept |
| Lists.FilterNoDup | backend/controllers/storeController.js:133 | filtering keeps a list duplicate-free |
| Lists.PushAbsentKeepsNoDup | backend/controllers/storeController.js:96-99 | a guarded push never creates a duplicate, and a second push is a no-op |
| Lists.WithoutKeepsOthers | backend/controllers/storeController.js:133 | removal distributes over concatenation and keeps every other element's count |
| Text.TrimEmptyIffBlank | frontend/src/pages/Contact.jsx:27 | `trim()` gives "" exactly when the string is all white space |
| Text.EmailPatternIff | frontend/src/pages/Contact.jsx:31 | `/\S+@\S+\.\S+/.test` holds exactly when some '@' and a later '.' have non-space text around and between them |
| Text.BeforeFirst | frontend/src/utils/safeUser.js:11 | a prefix with no '@', followed in the input by '@' when shorter |
| Text.Includes | backend/controllers/storeController.js:169-171 | true exactly when the text occurs at some position |
| Text.BasenameOfPath | backend/controllers/storeController.js:18 | the base name of "dir/name" and of "name" is "name" |
| Base64.Encode | backend/controllers/authController.js:17 | four characters per started group of three bytes |
| Base64.DecodeEncode | backend/controllers/authController.js:17 | decoding the base64 text gives back the bytes |
| Base64.DataUrlRoundTrip | backend/controllers/authController.js:15-17 | a data URL gives back its media type and its bytes |
| SignupPage.ReachesIff | frontend/src/auth/SignupPage.jsx:61 | the scan equals one lookahead: a class character reached with no line terminator before it |
| SignupPage.PasswordPatternIff | frontend/src/auth/SignupPage.jsx:61 | the regular expression holds exactly when all three lookaheads succeed at a common position |
| SignupPage.PasswordPatternOneLine | frontend/src/auth/SignupPage.jsx:61 | on one line it asks for an uppercase letter, a digit and one of !@#$%^&* |
| SignupPage.SetError | frontend/src/auth/SignupPage.jsx:48-49 | the field's error is set exactly on failure; no other key changes |
| SignupPage.ValidateField | frontend/src/auth/SignupPage.jsx:43-83 | only the named key changes; each field's error is set exactly when its rule fails; the length message comes first; unnamed fields such as "terms" change nothing |
| SignupPage.UncheckedErrorsStay | frontend/src/auth/SignupPage.jsx:43-83 | no sequence of validations removes a "terms" or "general" error |
| SignupPage.SubmitGateAsWritten | frontend/src/auth/SignupPage.jsx:90-98 | a submit proceeds exactly when terms are ticked and there are no errors at all |
| SignupPage.AsWrittenTermsErrorBlocksForever | frontend/src/auth/SignupPage.jsx:90-98 | as written, after one submit with unticked terms no later submit proceeds |
| SignupPage.SubmitGate | frontend/src/auth/SignupPage.jsx:90-98 | as corrected, a submit proceeds exactly when terms are ticked and no field has an error |
| SignupPage.TermsErrorClears | frontend/src/auth/SignupPage.jsx:90-98 | as corrected, ticking the terms lets the next clean submit through |
| SignupPage.EncodedForm | frontend/src/auth/SignupPage.jsx:100-109 | the six text fields (first and last name, email, password, its confirmation, user type) as typed; terms as "on"/"off"; the photo as a file, or the string "null" |
| SignupPage.SignupPageState.Validate | frontend/src/auth/SignupPage.jsx:43-83 | the page's errors become `ValidateField` of the old ones |
| SignupPage.SignupPageState.EncodeForm | frontend/src/auth/SignupPage.jsx:100-109 | one entry per form key, in order, each encoded by its rule |
| SignupPage.SignupPageState.HandleSubmit | frontend/src/auth/SignupPage.jsx:85-111 | a body is produced exactly when the gate lets the submit through; then loading is set |
| SignupPage.SignupPageState.ChangeTerms | frontend/src/auth/SignupPage.jsx:26-41 | ticking or unticking the box changes the form's `terms` and leaves the errors as they were |
| SignupPage.SignupPageState.SubmitTickSubmit | frontend/src/auth/SignupPage.jsx:85-98 | with no field error, an unticked submit is stopped, and after a tick the next submit posts the form |
| SignupPage.SignupPageState.Finished | frontend/src/auth/SignupPage.jsx:116-126 | success sets the message; failure replaces the errors with the single "general" error; loading stops |
| ContactPage.FirstFailure | frontend/src/pages/Contact.jsx:27-42 | the checks run in the order name, email, message, terms; the first failure is reported; blank means empty or only white space |
| ContactPage.EmptyFormRejected | frontend/src/pages/Contact.jsx:6-11 | the initial form fails on the name |
| ContactPage.Contact.HandleSubmit | frontend/src/pages/Contact.jsx:23-45 | a failure is reported and nothing changes; otherwise loading is set |
| ContactPage.Contact.MessageSent | frontend/src/pages/Contact.jsx:47-56 | loading stops and the form is reset to empty strings and unticked terms |
| AppContext.KeepOthers | frontend/src/context/AppContext.jsx:21 | exactly the items whose `id` differs from the argument |
| AppContext.WithoutId | frontend/src/context/AppContext.jsx:20-22 | a TypeError exactly when some item is null or undefined; otherwise exactly the items whose `id` differs |
| AppContext.WithoutIdProperties | frontend/src/context/AppContext.jsx:20-30 | removal keeps order and the count of every other item |
| AppContext.WithoutIdTwice | frontend/src/context/AppContext.jsx:20-30 | after a removal that succeeds, a second one succeeds and changes nothing |
| AppContext.AppProvider.AddBooking | frontend/src/context/AppContext.jsx:16-18 | appends at the end, one longer, without deduplicating; favourites untouched |
| AppContext.AppProvider.RemoveBooking | frontend/src/context/AppContext.jsx:20-22 | a null or undefined item makes the update throw and bookings stay as they were; otherwise bookings become the kept items; favourites untouched |
| AppContext.AppProvider.AddFavourite | frontend/src/context/AppContext.jsx:24-26 | the same append on favourites only |
| AppContext.AppProvider.RemoveFavourite | frontend/src/context/AppContext.jsx:28-30 | the same removal, and the same throw, on favourites only |
| AppContext.AppProvider.ToggleTheme | frontend/src/context/AppContext.jsx:12-14 | flips `isDarkMode` |
| AppContext.AppProvider.ToggleShowPassword | frontend/src/context/AppContext.jsx:56 | flips `showPassword` |
| AppContext.AppProvider.ToggleTwice | frontend/src/context/AppContext.jsx:12-14 | two toggles of either switch restore it |

## Left out

- Session ids, cookies and expiry are not modelled. The failure callbacks of `regenerate`, `save` and `destroy` are also left out. Regenerating a session is modelled as replacing its payload.
- Database failures are left out. So are the matching 500 paths in every `catch`, except a duplicate new id on save, which the model treats as a rejected save.
- `err.message` comes from code that is not part of this model. It is passed to the handlers as a parameter.
- Mongoose casting is not modelled. The model does not cover ObjectId versus string ids or the casting of non-string field values on save. Schema defaults and the unique-email index are not part of this model; the version key is left out too.
- AuthController.PostLogin and AuthController.PostSignup take a string email as an exact match. Any other email (an object such as `{"$ne": null}`, an array, a number, null or undefined) is cast by Mongoose and read by the driver as a query. The model does not evaluate those queries: the `hits` parameter is the set of users the query selects. Cast errors on such values (a 500) are not modelled.
- `postAddToBooking` and the other list handlers take the home id as a string. A missing `homeId` in the body, which Mongoose would fail to cast, is not modelled.
- The `maxCount` limits in `upload.fields` and multer errors for unexpected fields are left out: they go to the error middleware, which is not part of this model.
- Bcrypt.Hash: the digest is a checkable stand-in, not a one-way function. Only `Compare(p, Hash(p, salt))` and the rejection of passwords with another key stream are claimed. `digest != password` is stated only for passwords whose length differs from the digest's, since the stand-in digest embeds the key stream.
- Bcrypt.Significant: bcryptjs appends a NUL to the UTF-8 encoding of the password and reads it cyclically for 72 bytes. The model does the same over characters, which matches byte for byte only for ASCII passwords.
- JavaScript string lengths count UTF-16 code units. The model counts characters, so `value.length < 6` differs for text outside the Basic Multilingual Plane.
- Arrays and objects are compared by contents, not by reference (`!==` in `removeBooking` on object ids).
- NaN and infinite numbers are not modelled.
- `getHomes`, `getHomeRules` and `downloadRules` are left out: they are an EJS render, a redirect and a file download. The detail page's template data is reduced to the home id.
- The toast library, timers and navigation are left out. `setTimeout` callbacks are separate methods (`MessageSent`, `Finished`). The `handleChange` updates to the form state are not modelled.
- AppContext's `refreshBookings` and `refreshFavourites` are network calls and are left out. So is `user`/`setUser`, which is a plain setter.
- ClientSafeUser.BuildSafeUser takes an object or nothing. A truthy non-object argument, which would be spread as one, is not modelled.
- Promise interleaving between requests is not modelled; each handler is one atomic step.
- SignupPage.SignupPageState.HandleSubmit and the rest of the model use the corrected gate (see Findings). The gate as written is `SubmitGateAsWritten`.
- AuthController.UpdateUserProfile and AuthController.PostSignup answer with the corrected password-free bodies, and the update writes the login snapshot to the session (see Findings). The bodies as written are `UpdateBodyAsWritten` and `SignupBodyAsWritten`.

## Findings

| source | as written | input that shows it | evidently intended | confidence | as-written member | corrected member |
|---|---|---|---|---|---|---|
| backend/controllers/authController.js:59-63 | the profile update answers with the whole user document and stores it in the session, bcrypt hash included | any successful PUT /profile: the body's `user.password` and the session's `user.password` are the stored hash | the password-free view, as `getCurrentUser` selects `-password` and `postLogin` strips it | medium, not executed | AuthController.AsWrittenBodiesCarryHash | AuthController.CorrectedBodiesHideHash |
| backend/controllers/authController.js:176 | the signup answer carries the whole new user document, bcrypt hash included | any successful POST /signup: the body's `user.password` is the stored hash | the password-free view, as the login answer gives | medium, not executed | AuthController.AsWrittenBodiesCarryHash | AuthController.CorrectedBodiesHideHash |
| frontend/src/auth/SignupPage.jsx:90-98 | a terms error, once set, is never cleared (validateField has no "terms" case, and ticking the box only reaches the default branch), so every later submit stops at the error-count check; the "general" error after a failed request behaves the same | submit with the box unticked, tick it, submit again: nothing is posted | ticking the terms clears the terms error and lets a clean form submit | high, not executed | SignupPage.AsWrittenTermsErrorBlocksForever | SignupPage.TermsErrorClears |
| backend/controllers/hostController.js:43,58-59 | after answering 404 from the first `then`, the chain still calls `res.status(200).json`, which throws because headers were sent; the `catch` then calls `res.status(500).json`, which throws again, and the promise is not returned, so the rejection is unhandled (the same at 68, 78-79 and 99, 119-120) | PUT /api/host/homes/:homeId, or DELETE, with an id that has no home | the 404 ends the request with no later send | medium, not executed | HostController.AsWrittenNotFoundRejects | HostController.CorrectedChainSettles |
