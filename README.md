# Notes service: ownership-scoped notes and OTP-gated registration

This project models the decision logic of a small notes service, stated in Dafny and proved.
Users prove they own an email address with a one-time code (OTP). Then they sign up, log in, and create, list,
read, update and delete text notes. Each note is visible only to its owner.

The two stores are in-memory maps:

- **Notes** (`notes_api.dfy`, module `NotesApi`): a map from note id to
  `{title, content, user, createdAt, lastModified}`. `user` is the owner's email.
  - `viewNotes` and `viewNote/:id` only read the map, so they are functions over it.
  - `createNotes`, `updateNotes/:id` and `deleteNotes/:id` change the map. Each is a step function: the reply
    plus the map after the request.
  - Class `NoteCollection` implements those three steps as methods that update its `notes` field in place.
    They follow the handler's order: lookup, the 404 guard, the 403 guard, then the write.
  - The caller's email is an input, because the authentication middleware is not part of this model.
- **Registration** (`user_api.dfy`, module `UserApi`): the OTP collection and the user collection, both maps
  keyed by email.
  - `sendOTP`, `verify-otp`, `signup` and `createUser` are step functions over that state.
  - Class `UserService` implements them as methods over its `otps`, `users` and `nextUserId` fields. The writes
    happen in the handler's order: for example, `User.create` comes before `OTP.deleteOne`.
  - `login` and `logout` change no store, so they are functions.
- **OTP record** (`otp_model.dfy`, module `OtpModel`): the schema.
  - The `required` validators on `email` and `otp`.
  - The defaults `isVerified = false` and `createdAt = now`.
  - The five-minute TTL, written as the predicate `IsLive(rec, now)` (`now - createdAt < 300000` ms). Every
    lookup in verify and signup filters on it.

Helper modules: `Wrappers` (Option, Result), `JsValues` (JavaScript falsiness and `a || b` for optional string
fields), `Http` (status codes), `Identity` (the `Email` type both APIs key callers and records by).

Outside collaborators become inputs:

- the random draw for the code, as the subset type `SixDigit` (100000..999999);
- whether the email was delivered, as a boolean;
- the clock, as an integer number of milliseconds.

Some other modelling choices:

- **Password hashing** is an ideal hash. A `Digest` is determined by its secret, and `Matches(p, d)` holds only
  for that secret. A stored user therefore always holds a `Digest`, never a bare string.
- **Session tokens** are their claims: the id if present, the email, and the expiry.
- **Fresh ids**: the counters `nextId` and `nextUserId` stand for the database's fresh object ids.

Three consequences of the code's order of checks that are easy to get wrong:

- A repeated `signup` after a successful one is refused as "Email not verified", not "User already exists".
  The first signup deleted the code record, and the code check runs before the user-exists check
  (`RegistrationScenario`).
- `verify-otp` does not use the code up. The same code verifies again until the record expires, a signup
  consumes it or a new sendOTP for the email replaces it (`OtpRoundTrip`).
- `signup` on a registered email answers "User already exists" only when a verified, live code exists.
  Otherwise it answers "Email not verified" (`Signup`).

## Model

| member | source | states |
|---|---|---|
| NotesApi.CreateNote | routes/notesApi.js:15-28 | always 201; exactly one new note, under the fresh id, owned by the caller, with the given title; content is the supplied one, or "hello this is my first Note" when that is absent or empty; createdAt = lastModified = now; every existing note kept; size grows by one |
| NotesApi.ViewNotes | routes/notesApi.js:45-61 | data holds exactly the caller's notes (projected to title, content, user, createdAt); count equals their number; 404 iff the caller owns no note, 200 otherwise |
| NotesApi.ViewNote | routes/notesApi.js:73-93 | 404 iff the id is absent; 403 iff present and owned by someone else; 200 with that note iff owned by the caller |
| NotesApi.UpdateNote | routes/notesApi.js:102-130 | 404 before 403 as for viewNote; on 403/404 the map is unchanged; on 200 only that note changes: content becomes the supplied value, or stays the old content when the supplied one is falsy; lastModified = now; title, owner, createdAt and every other note unchanged; the updated note is returned |
| NotesApi.DeleteNote | routes/notesApi.js:139-160 | 404 before 403; on 403/404 the map is unchanged; on 200 exactly that id is removed and every other note kept |
| NotesApi.OwnershipIsolation | routes/notesApi.js:84-155 | a note owned by A is neither readable, nor changeable, nor removable by B ≠ A: all three answer 403 and leave the map as it was |
| NotesApi.DeleteTwice | routes/notesApi.js:143-160 | deleting one's own note succeeds; deleting the same id again answers 404 |
| NotesApi.CreateThenList | routes/notesApi.js:18-60 | after createNotes the owner's listing is 200, contains the new id and its count grows by exactly one; every other caller's listing is identical |
| NotesApi.Apply | routes/notesApi.js:15-160 | one changing request keeps every stored id below the next id to be issued, so creates never overwrite |
| NotesApi.Run | routes/notesApi.js:15-160 | the same freshness invariant holds after any sequence of requests |
| NotesApi.ApplySparesOthers | routes/notesApi.js:84-156 | a single create, update or delete by a caller other than A leaves A's notes exactly as they were |
| NotesApi.IsolationAcrossRequests | routes/notesApi.js:84-156 | any sequence of requests by callers other than A leaves A's notes exactly as they were |
| NotesApi.NoteCollection.HandleCreateNotes | routes/notesApi.js:15-27 | Note.create in place under a fresh id; reply and new map are those of CreateNote; id counter advances |
| NotesApi.NoteCollection.HandleUpdateNotes | routes/notesApi.js:102-130 | findById, the 404 and 403 guards, findByIdAndUpdate in place; reply and new map are those of UpdateNote |
| NotesApi.NoteCollection.HandleDeleteNotes | routes/notesApi.js:139-160 | findById, the 404 and 403 guards, findByIdAndDelete in place; reply and new map are those of DeleteNote |
| OtpModel.IsLive | models/otp.model.js:16-19 | a record is live from its creation and throughout the five minutes (300000 ms) after `createdAt`, and is gone once they have passed |
| JsValues.Or | routes/notesApi.js:20 | JavaScript's or-default on an optional string: the fallback when the field is absent or empty, otherwise the field itself and then non-empty (also the `updateData` fallback to the old content at line 122) |
| OtpModel.NewOtpRecord | models/otp.model.js:3-21 | a record is built iff email and otp are both present and non-empty (otherwise the offending paths are reported); isVerified defaults to false, createdAt to now |
| UserApi.SendOtp | routes/userApi.js:11-39 | 400 and no change without an email; otherwise exactly one record for the email holding the new six-digit code, isVerified = false, createdAt = now, all other records and users unchanged; the record is written whether delivery gives 200 or 500 |
| UserApi.SixDigitCode | routes/userApi.js:19 | every draw in [100000, 999999] turns into a code of exactly six decimal digits |
| UserApi.DecimalRoundTrip | routes/userApi.js:19 | the code text is all digits and reads back as the drawn number |
| UserApi.DecimalLength | routes/userApi.js:19 | a number with k+1 digits has a numeral of length k+1 |
| UserApi.DistinctDrawsDistinctCodes | routes/userApi.js:19 | different draws give different code texts |
| UserApi.CodeMatches | routes/userApi.js:48 | `OTP.findOne({ email, otp })`: no record, or an expired one, never matches; a live record matches exactly when its code equals the offered one |
| UserApi.HasVerifiedCode | routes/userApi.js:71 | `OTP.findOne({ email, isVerified: true })`: no record, or an expired one, is never found; a live record is found exactly when it is verified |
| UserApi.VerifyOtp | routes/userApi.js:41-60 | 200 iff email and code are given and a live record matches both exactly, and then only that record's isVerified becomes true; otherwise 400 and no change, with "required" exactly when a field is missing |
| UserApi.Signup | routes/userApi.js:63-111 | 400 "All fields are required" iff a field is missing; then 400 "not verified" iff no live verified record (checked before the user check); then 400 "already exists"; 201 iff all pass, adding exactly one user (fresh id, hashed password) and deleting the email's code record, with a token cookie carrying id and email; 400 changes nothing |
| UserApi.CreateUser | routes/userApi.js:113-139 | no code check; a new email gets exactly one user (fresh id, hashed password) and 201 with a token carrying only the email; a taken email gives 500 and no change; code records never change |
| UserApi.Login | routes/userApi.js:142-174 | 404 iff unknown email; 401 iff the password does not match the stored hash; 200 iff it matches, and only then a one-hour token with id and email in an http-only, secure, SameSite=None cookie with one-hour max-age |
| UserApi.Logout | routes/userApi.js:175-184 | 200 and the token cookie is overwritten empty with max-age 0 |
| UserApi.OtpLifecycle | routes/userApi.js:22-92 | the NONE → SENT → VERIFIED → CONSUMED machine: sending gives SENT; a successful verify starts from SENT or VERIFIED and gives VERIFIED; a successful signup starts from VERIFIED and gives CONSUMED |
| UserApi.OtpRoundTrip | routes/userApi.js:19-55 | after a send, within the TTL, the sent code verifies, the code of any other draw is rejected, and the sent code verifies again |
| UserApi.ExpiredCodeIgnored | models/otp.model.js:16-20 | once a record is past its five minutes, verify and signup both answer 400, and each gives exactly the reply it would give if the record had been deleted |
| UserApi.RegistrationScenario | routes/userApi.js:11-168 | send, verify and signup for a new email give 200, 200 and 201 with the next user id; the password then logs in and any other password gets 401; a repeated signup is refused as "Email not verified" |
| UserApi.CreateUserIgnoresOtp | routes/userApi.js:113-134 | createUser's reply and resulting users are the same whatever the code records are |
| UserApi.Apply | routes/userApi.js:11-139 | each registration request preserves the state invariant: records keyed by their email, well formed, with six-digit codes; users keyed by email, with distinct issued ids |
| UserApi.Run | routes/userApi.js:11-139 | the invariant holds after any sequence of requests |
| UserApi.UsersPersist | routes/userApi.js:63-139 | no request changes or removes a registered user, over any sequence of requests |
| UserApi.SignupNeedsVerify | routes/userApi.js:41-92 | starting with the email unregistered and its record, if any, unverified, a run in which no verify-otp for the email answers 200 and no createUser names it leaves the email unregistered and its record unverified; failed verify attempts with any code, and any requests for other emails, are allowed |
| UserApi.UserService.HandleSendOtp | routes/userApi.js:11-35 | guard, code, upsert in place, then the delivery outcome; reply and new state are those of SendOtp; invariant kept |
| UserApi.UserService.HandleVerifyOtp | routes/userApi.js:41-55 | guard, findOne on email and code, then isVerified set and saved in place; reply and new state are those of VerifyOtp |
| UserApi.UserService.HandleSignup | routes/userApi.js:63-106 | the guards in order, User.create, then OTP.deleteOne, in place; reply and new state are those of Signup |
| UserApi.UserService.HandleCreateUser | routes/userApi.js:113-134 | User.create in place with the hashed password; reply and new state are those of CreateUser |

## Left out

- Server bootstrap (`app.js`): environment loading, CORS, body and cookie parsing, the database connection, listening. This is I/O.
- The authentication middleware and its 401 answer (`util/authMiddleware` is not part of this model). The caller's email is an already-authenticated input to every notes route.
- bcrypt: salt generation, cost factor and collisions. Hashing is an ideal hash (see above). bcrypt also reads only the first 72 bytes of a password, and the model compares whole passwords.
- UserApi.Login: its 401 case is stated for the ideal hash. Two passwords that agree on their first 72 UTF-8 bytes both log in under bcrypt, but only the stored one does in the model.
- UserApi.RegistrationScenario: "any other password gets 401" holds for bcrypt only when the other password differs within its first 72 UTF-8 bytes.
- JWT signing and verification. A token is modelled by its claims only.
- Cookie semantics in the browser. A cookie is modelled by its attributes only.
- Email delivery. Its outcome is the `delivered` input.
- `Math.random` and its floating point. The draw is an input of the subset type `SixDigit`.
- `loggedIn`: a projection read with no decision logic.
- Catch-all 500 answers for database errors, cast errors of malformed ids and validation failures. The one modelled catch-all 500 is createUser on a taken email; the 500 of sendOTP on failed delivery is modelled as well.
- The non-atomic check-then-write windows under concurrent requests. Every request is modelled as atomic and sequential.
- The background TTL sweeper's timing. Expiry is the `IsLive` predicate applied at lookup.
- Ordering of the viewNotes list. `data` is a map from id, so the database's return order is not modelled.
- `notes.model` and `user.model` are not part of this model.
  - Note `createdAt` and `lastModified` are both taken to be the creation time.
  - Note `title` is taken to be a present string.
  - User email is taken to be unique, so createUser on a taken email fails with 500.
- Verify and signup take the code and the email as optional strings. A JSON number sent as the code is cast to its string by the ODM, and that cast is not modelled.
- UserApi.VerifyOtp: its exact-match guarantee covers string fields only. The JSON body parser also accepts objects, and an object such as `{"$ne": ""}` is truthy and reaches `findOne` as a query operator (verify-otp, signup and login lookups). Non-string bodies are not modelled.
- UserApi.CreateUser: takes username, email and password as present strings. The 500 that bcrypt or the user schema raise for a missing field is not modelled.
- UserApi.Login: takes email and password as present strings. How the driver treats a missing email in `findOne` is not modelled.
