# ConnIT profile core in Dafny

ConnIT is a developer-profile site. It has an Express API backed by MongoDB
and a React/Redux client. This project models its profile and account core as
pure functions over immutable data, and proves properties of them. The core
has six parts:

- **Profile routes** (`routes/api/profile.js`). Each handler is a function from
  the request and the store to the response and the new store. They cover:
  - the create-or-update route, with field building and `$set` semantics;
  - the reads;
  - account deletion;
  - adding and removing experience and education entries.
- **Auth middleware** (`middleware/auth.js`). It decides, from the
  `x-auth-token` header alone, whether a request gets a 401 or reaches its
  handler, and with which user.
- **Account routes** (`routes/api/users.js`, `routes/api/auth.js`). These are
  registration, user deletion, the user listing, the current account and
  login.
- **Profile reducer** (`client/src/redux/reducers/profile.js`). It keeps the
  DELETE_ACCOUNT branch that returns `undefined`.
- **Profile thunks** (`client/src/redux/actions/profile.js`). Each thunk maps the
  outcome of its HTTP request to everything it does, in order: the request,
  the dispatched actions, the alerts and the navigation.
- **Profile form** (`client/src/component/profile-form/ProfileForm.js`). It
  covers prefilling from a loaded profile, editing a field and submitting.

Two more modules tie the client to the server. `Wire` gives the JSON form of
every response body and what axios makes of a status. `EndToEnd` proves
properties of both sides together. For example:

- submitting the edit form untouched leaves the store unchanged;
- after a successful save the client holds the `{ msg, profile }` reply, not
  the profile, so a form mounted on that state, before anything fetches the
  profile again, stays blank;
- a confirmed account deletion that passes the auth middleware never gets
  the profile slice back to its initial state: the store refuses the
  DELETE_ACCOUNT dispatch, so the slice stays as CLEAR_PROFILE left it and
  the success alert is never raised.

Some modelling choices:

- **Store.** The store holds the `User` and `Profile` collections as
  sequences in natural order. `findOne` is the first match, `find` is the
  whole sequence, and saving a new document appends it.
- **Invariant.** `Model.Valid` says no user owns two profiles and ids and
  emails are unique. Every route that writes preserves it, given fresh ids.
- **Foreign libraries as parameters.** These are passed in, not modelled:
  - `jwt.verify` and `jwt.sign`;
  - `bcrypt.hash` and `bcrypt.compare`, and the salt `genSalt` produced;
  - `gravatar.url`;
  - express-validator's `isEmail`, which rejects `""`;
  - the ids MongoDB assigns.
- **Tokens.** A token in a response is recorded as what was signed: the
  payload `{ user: { id } }` and the `expiresIn` value.
- **Reducer state.** The reducer takes and returns `Option<State>`. `None`
  stands for `undefined`: the reducer's default parameter replaces it with
  the initial state, and DELETE_ACCOUNT returns it.
- **Client store.** The store always holds a `State`. Redux's
  `combineReducers` throws when a slice reducer returns `undefined`, so the
  DELETE_ACCOUNT dispatch is refused and leaves the state as it was. The
  thunk's `catch` block then reads `err.response` of an error that has none
  and throws again, so the rest of the thunk never runs.

Behaviours of the code that the model keeps as they are:

- Emails are matched exactly (case-sensitive).
- Split skills keep empty pieces, e.g. `"a,,b"` gives three skills.
- Login tells an unknown email (`'Invalid Credentials - User'`) apart from a
  wrong password (`'Invalid Credentials - PW'`).
- A duplicate registration answers 400 with an empty `errors` array.
- The auth middleware sends two different 401 messages.
- An update keeps scalar fields the submission leaves out.
- `DELETE /api/users` removes the user record but leaves the profile in place.

## Model

| member | source | states |
|---|---|---|
| Seqs.IndexOf | routes/api/profile.js:228 | `indexOf` yields -1 exactly when the id is absent, and otherwise the first position holding it |
| Seqs.RemoveAt | routes/api/profile.js:234 | `splice(i, 1)` drops exactly element `i`: the prefix is kept, the rest shifts down one in order, and the multiset loses just that element |
| Text.Trim | routes/api/profile.js:66 | `trim` gives the slice of the input left once only JavaScript whitespace is cut off both ends, and no whitespace remains at either end of it |
| Text.TrimFixedPoints | routes/api/profile.js:66 | a string is left unchanged by `trim` exactly when it is already trimmed |
| Text.TrimIdempotent | routes/api/profile.js:66 | trimming twice is trimming once |
| Text.Split | routes/api/profile.js:66 | `split(',')` gives one more piece than there are commas, and no piece contains a comma |
| Text.JoinSplit | routes/api/profile.js:66 | joining the pieces of a split with the separator gives back the original string |
| Text.SplitJoin | routes/api/profile.js:66 | `split` on a character undoes a join on that character of pieces that do not contain it |
| Text.SplitTrimInvertsJoin | routes/api/profile.js:66 | splitting on commas and trimming undoes a `", "` join of trimmed, comma-free strings |
| Model.ErrorsOf | routes/api/profile.js:42-44 | the validation errors are empty exactly when every check passed; every failed check's error is reported and every reported error belongs to a failed check |
| Model.ErrorsOfConcat | routes/api/profile.js:42-44 | the errors of two lists of checks are those of the first followed by those of the second, so errors come in declaration order, one per failed check |
| Model.RemovedUsersStayUnique | routes/api/users.js:93 | removing one user keeps ids and emails unique |
| Model.RemovedProfilesStayUnique | routes/api/profile.js:148 | removing one profile keeps owners unique |
| ProfileRoutes.ParseSkills | routes/api/profile.js:66 | the skills list has one trimmed entry per comma-separated piece, empty pieces included |
| ProfileRoutes.ProfileChecks | routes/api/profile.js:37-38 | the create-or-update request is rejected with 'Status is required' when status is empty, then 'Skills is required' when skills is empty, and with nothing else |
| ProfileRoutes.KeepTruthy | routes/api/profile.js:52-57 | a scalar field is copied exactly when the submitted value is truthy, and then unchanged |
| ProfileRoutes.BuildSocial | routes/api/profile.js:70-75 | `social` holds exactly the platforms whose submitted link is truthy, each with that link |
| ProfileRoutes.BuildFields | routes/api/profile.js:49-75 | the fields object carries the caller as owner, the truthy scalars, the parsed skills when skills is truthy, and the social object |
| ProfileRoutes.Create | routes/api/profile.js:95 | a new profile holds exactly the built fields, with empty experience and education lists |
| ProfileRoutes.ApplySet | routes/api/profile.js:86-90 | `$set` replaces the scalar fields the submission has, keeps those it omits, replaces `social` as a whole, and leaves both lists untouched |
| ProfileRoutes.Upsert | routes/api/profile.js:34-104 | the route answers 400 with the validator errors and writes nothing exactly when status or skills is empty. Otherwise the caller owns a profile afterwards and the count grows only if they had none. It answers 200 exactly when the user record exists, with `{ msg: "<name> Profile Updated" }` or `"... Created"` according to whether a profile existed, and the stored profile; otherwise 500 `{ msg: 'Server Error' }`. User records are never touched |
| ProfileRoutes.UpsertCreates | routes/api/profile.js:93-97 | with no profile for the caller, exactly one new profile built from the request is appended |
| ProfileRoutes.UpsertUpdates | routes/api/profile.js:84-91 | with a profile for the caller, only that document changes, to the `$set` of the built fields |
| ProfileRoutes.UpsertKeepsOwnersUnique | routes/api/profile.js:83-98 | create-or-update never gives a user a second profile |
| ProfileRoutes.GetMe | routes/api/profile.js:14-29 | the caller's profile is returned exactly when they own one; otherwise 400 'There is no profile for this user' |
| ProfileRoutes.GetAll | routes/api/profile.js:110-119 | every profile is returned, in natural order |
| ProfileRoutes.ListedProfilesAreLookups | routes/api/profile.js:110-137 | when nobody owns two profiles, every profile in the listing is what the per-user route answers for its owner |
| ProfileRoutes.GetByUser | routes/api/profile.js:125-137 | the user's profile is returned exactly when one exists; otherwise 400 'Profile not found' |
| ProfileRoutes.DeleteAccount | routes/api/profile.js:142-166 | the message is `"<name> Profile Deleted"` when the user record existed and 'Profile Not Found' otherwise; each collection shrinks by one exactly when it held the caller |
| ProfileRoutes.DeleteAccountCascades | routes/api/profile.js:147-151 | in a valid store, deletion leaves no profile and no user record for the caller and keeps everybody else's |
| ProfileRoutes.DeleteAccountKeepsValid | routes/api/profile.js:142-166 | account deletion preserves the store invariant |
| ProfileRoutes.AddEntry | routes/api/profile.js:210 | `unshift` puts the new entry at index 0 and shifts the older ones by one, in order |
| ProfileRoutes.RemoveEntry | routes/api/profile.js:228-234 | removal fails exactly when no entry has the id; otherwise only the first entry with that id is removed and the rest keep their order |
| ProfileRoutes.RemoveUndoesAdd | routes/api/profile.js:210 | removing the id of an entry just added gives back the original list |
| ProfileRoutes.AddExperience | routes/api/profile.js:173-219 | 400 with the validator errors exactly when title, company or from is empty. With no profile the answer is 500 'Server Error'. A valid request from a profile owner succeeds: only that profile changes, with the entry at the head of its experience, and the reply is `{ profile }` |
| ProfileRoutes.RemoveExperience | routes/api/profile.js:225-240 | with no profile, 400 'Bad Request'; with an absent id, 400 'Experience Not Found'; either way the store is unchanged. A present id succeeds: the first matching entry is gone and the reply is the bare profile |
| ProfileRoutes.AddEducation | routes/api/profile.js:246-293 | 400 with the validator errors exactly when school, degree, major or from is empty. With no profile the answer is 500 'Server Error'. A valid request from a profile owner succeeds: the entry heads the education list and the reply is the bare profile |
| ProfileRoutes.RemoveEducation | routes/api/profile.js:299-314 | as for experience, with 'Education Not Found'; a present id in an owned profile is removed with 200 |
| ProfileRoutes.EntryHandlersKeepOwners | routes/api/profile.js:209-211 | the four sub-list handlers never change who owns which profile |
| ProfileRoutes.ExperienceChecks | routes/api/profile.js:177-179 | an experience entry is rejected with one error for each empty field of title, company and start date, in that order, and with nothing else |
| ProfileRoutes.EducationChecks | routes/api/profile.js:250-253 | an education entry is rejected with one error for each empty field of school, degree, major and start date, in that order, and with nothing else |
| AuthGate.AuthMid | middleware/auth.js:6-24 | a missing or empty token gives 401 'No token, authorization denied', and a token that fails verification gives 401 'Token is not valid'. `next` is called, exactly once and with `req.user` set to the decoded user, exactly when the token verifies. Every call either responds or calls `next`, never both |
| AuthGate.AuthMidReadsOnlyTokenHeader | middleware/auth.js:8 | two requests that agree on `x-auth-token` are treated alike, whatever their other headers |
| AuthGate.Protect | middleware/auth.js:11-22 | a rejected request never reaches the handler and leaves the store unchanged; an accepted one runs the handler as the decoded user |
| UsersRoutes.Register | routes/api/users.js:22-84 | registration answers 200 exactly when the request validates and the email is new. Only then does it append one user holding the salted hash of the password, and return a token for the new id with expiry 1000000. A duplicate gets 400 with an empty errors array, and every failure leaves the store unchanged |
| UsersRoutes.RegisterChecks | routes/api/users.js:22-24 | a registration is rejected with one error each for an empty name, an email `isEmail` refuses and a password under six characters, in that order, and with nothing else |
| UsersRoutes.RegisterKeepsValid | routes/api/users.js:36-41 | with a fresh id, registration keeps ids and emails unique |
| UsersRoutes.DeleteUser | routes/api/users.js:90-104 | only the caller's user record is removed, and profiles are untouched; the reply is `"<name> User Deleted"` or 'User Not Found' |
| UsersRoutes.DeleteUserKeepsValid | routes/api/users.js:93 | user deletion preserves the store invariant and leaves no user with the caller's id |
| UsersRoutes.ListUsers | routes/api/users.js:109-117 | every user appears, in order, with only id, name and email, so no password leaves the server |
| UsersRoutes.RegisteredUserIsListed | routes/api/users.js:50-63 | after a successful registration the listing is the old one with the new user's id, name and email appended |
| AuthRoutes.CurrentAccount | routes/api/auth.js:14-22 | the caller's account, without the password, is returned exactly when it exists; otherwise `null` |
| AuthRoutes.Login | routes/api/auth.js:28-71 | an invalid email or a missing password gives 400 with the validator errors; an unknown email gives 400 'Invalid Credentials - User'; a known email with a non-matching password gives 400 'Invalid Credentials - PW'. A token is issued exactly when the user exists and the password matches, carrying that user's id with expiry 360000 |
| AuthRoutes.LoginChecks | routes/api/auth.js:29-30 | a login is rejected with 'Provide a valid email.' for an email `isEmail` refuses, then 'Password is required' for a missing password (an empty one passes), and with nothing else |
| AuthRoutes.LoginAfterRegister | routes/api/auth.js:41-62 | with a matching password, logging in as a freshly registered user yields a token for the new id |
| Js.JoinJsStrings | client/src/component/profile-form/ProfileForm.js:55 | `join` on an array of strings is the plain string join |
| ProfileReducer.Reduce | client/src/redux/reducers/profile.js:11-49 | GET_PROFILE and UPDATE_PROFILE set only the profile; PROFILE_ERROR records the error and clears the profile; CLEAR_PROFILE clears profile and repos; GET_PROFILES replaces the list. Every handled type stops loading, an unknown type changes nothing, and the result is undefined exactly for DELETE_ACCOUNT |
| ProfileReducer.ClearProfileIdempotent | client/src/redux/reducers/profile.js:29-35 | a second CLEAR_PROFILE changes nothing |
| ProfileReducer.DeleteAccountForgets | client/src/redux/reducers/profile.js:36-38 | as a function, the reducer applied to its own DELETE_ACCOUNT result behaves as on a fresh store, whatever was loaded before |
| ProfileActions.DangerAlerts | client/src/redux/actions/profile.js:54-56 | one danger alert, lasting 2000 ms, per server error message, in order; none when the body has no errors array |
| ProfileActions.GetCurrentProfile | client/src/redux/actions/profile.js:15-30 | GET `/api/profile/me`, then GET_PROFILE with the body or exactly one closing PROFILE_ERROR |
| ProfileActions.CreateProfile | client/src/redux/actions/profile.js:33-63 | on success: GET_PROFILE with the body, then 'Profile Updated' or 'Profile Created' according to `edit`, then the dashboard. On failure: one danger alert per server error, then exactly one PROFILE_ERROR, and no navigation |
| ProfileActions.AddExperience | client/src/redux/actions/profile.js:66-90 | on success UPDATE_PROFILE with the body, 'Experience Added' and the dashboard; on failure the danger alerts, then one PROFILE_ERROR, and no navigation |
| ProfileActions.AddEducation | client/src/redux/actions/profile.js:93-117 | as for experience, with 'Education Added' |
| ProfileActions.DeleteExperience | client/src/redux/actions/profile.js:120-136 | on success UPDATE_PROFILE with the body and 'Experience Removed'; on failure only one PROFILE_ERROR |
| ProfileActions.DeleteEducation | client/src/redux/actions/profile.js:139-155 | as for experience, with 'Education Removed' |
| ProfileActions.DeleteAccountThunk | client/src/redux/actions/profile.js:158-173 | a declined confirmation does nothing at all. On success: CLEAR_PROFILE, then DELETE_ACCOUNT, then the alert. On failure: one PROFILE_ERROR |
| ProfileActions.GetAllProfiles | client/src/redux/actions/profile.js:176-192 | CLEAR_PROFILE goes out before the request whatever its outcome, then GET_PROFILES or one PROFILE_ERROR |
| ProfileActions.GetUserProfileById | client/src/redux/actions/profile.js:195-209 | GET `/api/profile/user/<id>`, then GET_PROFILE with the body or one PROFILE_ERROR |
| ProfileActions.GetUserGithub | client/src/redux/actions/profile.js:212-224 | GET_REPOS with the body, or a payload-less NO_REPOS on any failure; never PROFILE_ERROR |
| ProfileActions.Step | client/src/redux/reducers/profile.js:36-38 | the store refuses a dispatch exactly when it is DELETE_ACCOUNT, the one action this reducer answers with `undefined` |
| ProfileActions.Run | client/src/redux/actions/profile.js:161-170 | the profile slice after a thunk's effects in order: requests, navigation and alerts never change it, and a refused dispatch first leaves it as it was |
| ProfileActions.RunAppend | client/src/redux/actions/profile.js:158-170 | effects run in order; after a refused dispatch nothing further happens |
| ProfileActions.GetCurrentProfileLoads | client/src/redux/actions/profile.js:15-30 | the current profile is loaded as the response body, or the failure is recorded and the profile cleared |
| ProfileActions.GetUserProfileByIdLoads | client/src/redux/actions/profile.js:195-209 | a user's profile is loaded as the response body, or the failure is recorded and the profile cleared |
| ProfileActions.RemovalLoads | client/src/redux/actions/profile.js:120-155 | removing an experience or education entry loads the response body as the profile, or records the failure |
| ProfileActions.AddEntryStoresBody | client/src/redux/actions/profile.js:66-117 | a successful experience or education addition loads the response body as the profile |
| ProfileActions.CreateProfileStoresBody | client/src/redux/actions/profile.js:40-44 | after a successful submission the client's profile is the response body verbatim, whatever its shape |
| ProfileActions.FormFailureRecordsError | client/src/redux/actions/profile.js:49-62 | however many alerts a failed submission raises, it leaves the error `{ msg: statusText, status }`, no profile and loading off |
| ProfileActions.DeleteAccountStopsCleared | client/src/redux/actions/profile.js:158-166 | a confirmed, successful deletion stops at the refused DELETE_ACCOUNT: the slice keeps the CLEAR_PROFILE state (no profile, no repos, loading off, everything else as before) and the success alert is never raised |
| ProfileActions.GithubKeepsState | client/src/redux/actions/profile.js:212-224 | the GitHub lookup never changes the profile slice |
| ProfileActions.GetAllProfilesFailure | client/src/redux/actions/profile.js:176-191 | a failed listing clears profile and repos, records the error and keeps the old list |
| ProfileForm.Overlay | client/src/component/profile-form/ProfileForm.js:44-46 | only keys the form already has are copied, and the form keeps exactly its keys |
| ProfileForm.JoinSkills | client/src/component/profile-form/ProfileForm.js:54-55 | a skills array becomes its `", "` join; any other skills value, or none, leaves the form unchanged; no other field changes |
| ProfileForm.Prefill | client/src/component/profile-form/ProfileForm.js:41-58 | the prefilled form has exactly the twelve keys. Each holds the social link if there is one, else the profile's own value, else `""`, and a skills array becomes its `", "` join |
| ProfileForm.PrefillWithoutFormKeys | client/src/component/profile-form/ProfileForm.js:41-51 | a value with none of the form's keys prefills the blank initial form |
| ProfileForm.PrefillIgnoresOtherKeys | client/src/component/profile-form/ProfileForm.js:44-46 | profile keys outside the form, such as `_id`, `user`, `experience` and `education`, have no influence on the form |
| ProfileForm.SocialWins | client/src/component/profile-form/ProfileForm.js:49-51 | on a key clash the social link overrides the top-level value |
| ProfileForm.OnMount | client/src/component/profile-form/ProfileForm.js:31-61 | the current profile is requested exactly when none is loaded; the form is filled exactly when a profile is loaded and loading is over; never both |
| ProfileForm.OnChange | client/src/component/profile-form/ProfileForm.js:78-80 | editing sets exactly the named field and leaves every other field unchanged |
| ProfileForm.OnChangeKeepsKeys | client/src/component/profile-form/ProfileForm.js:78-80 | editing a field of a prefilled form keeps exactly the twelve keys |
| ProfileForm.OnSubmit | client/src/component/profile-form/ProfileForm.js:82-85 | the form data are posted with `edit` true exactly when a profile is loaded, so the success alert says 'Profile Updated' for a loaded profile and 'Profile Created' otherwise |
| ProfileForm.OnSubmitRecordsOutcome | client/src/component/profile-form/ProfileForm.js:82-85 | a submission leaves the reply body as the loaded profile on success, and the recorded failure otherwise |
| Wire.EncodeProfile | routes/api/profile.js:23 | the JSON of a profile has exactly the keys of the fields it holds, each with that field's value |
| Wire.EncodeBody | routes/api/profile.js:44-101 | every reply the client parses is truthy except a `null` account and an empty text; it has an `errors` array exactly when it is an errors reply, one object with that error's `msg` each; it has a `profile` key exactly for the `{ msg, profile }` and `{ profile }` replies, holding that profile |
| Wire.StatusText | client/src/redux/actions/profile.js:27 | the statuses the server sends, and only those, have a non-empty reason phrase |
| Wire.FormToRequest | client/src/redux/actions/profile.js:40 | the posted form data arrive as a request whose field for each form key holds the form's string there, or nothing when the form holds no string |
| Wire.EditedFieldIsSent | client/src/component/profile-form/ProfileForm.js:78-85 | editing one field changes that field of the submitted request, to the typed value, and no other |
| Wire.ErrorMessages | client/src/redux/actions/profile.js:51 | only an errors body has an `errors` array, and its messages are those of the errors, in order |
| Wire.ToOutcome | client/src/redux/actions/profile.js:24-27 | a 2xx response resolves with its body; any other rejects with its status, status text and error messages |
| EndToEnd.PrefillOfStoredProfile | client/src/component/profile-form/ProfileForm.js:41-58 | the form prefilled from a stored profile shows each scalar field or `""`, each social link or `""`, and the skills joined with `", "` |
| EndToEnd.SkillsRoundTrip | client/src/component/profile-form/ProfileForm.js:54-55 | for any stored skills list (trimmed, comma-free pieces, empty ones included), the server's split-and-trim of the client's `", "` join recovers the list |
| EndToEnd.SubmittedForm | client/src/component/profile-form/ProfileForm.js:82-85 | submitting an untouched prefilled form sends every stored value back, with `""` for absent fields |
| EndToEnd.EditRequestRebuilds | routes/api/profile.js:86-90 | the fields built from that request, applied with `$set`, give the stored profile back |
| EndToEnd.ResubmitChangesNothing | routes/api/profile.js:83-91 | submitting the edit form without touching it leaves the whole store unchanged; it is rejected with 400 'Skills is required' exactly when the stored skills are `[""]`, whose join is empty |
| EndToEnd.BlankSkillsRejected | routes/api/profile.js:37-44 | a submission with a status and an empty skills string gets 400 with the single error 'Skills is required' and writes nothing |
| EndToEnd.EditRequestWrittenBack | routes/api/profile.js:83-91 | an edit request whose skills join to a non-empty string passes validation and writes the stored profile back unchanged |
| EndToEnd.SavedReplyPrefillsBlank | routes/api/profile.js:91 | the `{ msg, profile }` reply of a save prefills a blank form |
| EndToEnd.EditAfterSaveShowsBlankForm | client/src/redux/actions/profile.js:40-44 | right after a successful save, before anything fetches the profile again, the slice holds the reply, so a form mounted on it fills nothing in |
| EndToEnd.RejectedSubmissionAlerts | client/src/redux/actions/profile.js:49-62 | a rejected profile submission shows the validator messages as danger alerts, in order, then records a 400 'Bad Request' error |
| EndToEnd.AccountDeletionClearsClient | routes/api/profile.js:142-158 | with a token the auth middleware accepts, the deletion handler always answers 200, so a confirmed deletion reaches the refused DELETE_ACCOUNT and leaves the client's slice cleared, not at its initial state; with no accepted token the answer is 401, nothing is deleted, and the slice records the failure |
| EndToEnd.DeletedAccountIsGone | routes/api/profile.js:148-151 | after account deletion the caller's profile lookups answer 400 and the current account is `null` |
| EndToEnd.LoginTokenPassesGate | middleware/auth.js:15-19 | when verification accepts what signing produced, a login token gets through the auth middleware as the user who logged in |
| EndToEnd.LoginOpensProtectedRoute | middleware/auth.js:15-19 | a protected route called with a login token runs its handler as the user who logged in |

## Left out

- The GitHub repository proxy (`GET /api/profile/github/:username`) is network I/O through `request` plus parsing of external JSON. Only its client thunk is modelled.
- `populate` joins are not modelled. The `user` field of a returned profile is the owner id, not the populated `{ name, avatar }` object.
- Mongoose details are out:
  - ObjectId cast errors (the `err.kind == 'ObjectId'` branch);
  - the `date` field, `Date.now()`, `_id` of profiles and `__v`;
  - the un-awaited `profile.save()` of the removals, whose write is modelled as completed;
  - schema defaults.
- Store failures that land in the `catch` blocks are out: a database error is outside the model. The catch paths the code itself triggers are modelled. A missing profile in the sub-list handlers gives 500 or 400 'Bad Request'. A missing user record during create-or-update gives 500 after the write.
- The `jwt.sign` callback error and token expiry arithmetic are out. Signing and verifying are parameters.
- The internals of bcrypt, gravatar and `isEmail` are out.
- UsersRoutes.Register: the contract cannot state that the stored password is never the raw one. That depends on the hash function, which is a parameter.
- express-validator reads a field from every request location and reports `value` and `location` with each error. The model reads the body only and keeps `msg` and `param`.
- Request body values that are not strings (numbers, arrays, objects sent as JSON) are not modelled. Wire.FormToRequest turns a non-string form value into an absent field.
- JavaScript numbers are integers here. No floating-point formatting is modelled.
- `for...in` over a profile also reaches keys that `in` finds on `Object.prototype`, such as `toString` or `constructor`. Only own keys are modelled; a server profile has none of these names.
- The alert module and its `REMOVE_ALERT` timer are out. An alert reaches the profile reducer as one SET_ALERT action, which the reducer ignores.
- The other slices of the client store (auth, alert) are not part of this model; only the profile slice is run.
- ProfileActions.Run: the errors the refused dispatch and the `catch` block throw are not modelled as a rejected promise. The run simply stops at the refused dispatch.
- A rejection without `err.response` (a network failure) makes the thunks' `catch` blocks throw. It is not modelled.
- Concurrent requests are not modelled: races on create-or-update and lost updates on the sub-lists.
- EndToEnd.EditAfterSaveShowsBlankForm: speaks of the slice right after the save. The dashboard the save navigates to fetches the current profile again on mount (`client/src/component/dashboard/Dashboard.js` is not part of this model), after which the form would be filled.
- ProfileForm.OnMount: models one run of the effect. React re-runs it only when `loading` or `getCurrentProfile` changes (ProfileForm.js:61), so a profile that changes while `loading` stays the same does not refill the form; the sequence of runs is not modelled.
- `console` output, `history` objects, `window.confirm` (a boolean input here) and all rendering are out.
