# Strong-Authentication-System: user store and recovery flow in Dafny

This project models the credential store of `password/db.py` and the request
handlers of `password/app.py` that run on top of it: registration, login, the
one-time-code (OTP) password recovery flow and logout.

- `wrappers.dfy` (`Wrappers`): the `Option` type that stands for Python's `None`.
- `auth.dfy` (`Auth`): the password manager of `password/auth.py` as three
  uninterpreted functions bundled in a `PasswordManager` value: strength
  evaluation (a zxcvbn report whose `is_strong` is `score >= 3`), peppered
  hashing with an explicit salt, and verification, which is total because the
  source turns every error into `false`. `HashVerifies` states the hasher's own
  promise (a password verifies against every hash derived from it); lemmas that
  need it take it as a hypothesis.
- `db_spec.dfy` (`DbSpec`): the store as a value. It holds a map from username
  to record and the insertion order of the keys. Python dicts and the JSON round
  trip both keep that order, and the contact search depends on it. Each store
  operation is a function from the old store to the returned boolean and the new
  store. The OTP state machine and the stability of the contact search are
  proved over these functions.
- `db.dfy` (`Db`): the store as the program uses it, a `Store` class whose map
  and key order the methods update in place. Each mutator is proved to leave
  exactly the store its `DbSpec` function describes. The contact search is a
  loop with early return, proved to find the first match.
- `strings.dfy` (`Strings`): Python's `str.strip()`, used to build the login
  greeting, as a forward and a backward scan over the characters for which
  `str.isspace()` holds.
- `app_spec.dfy` (`AppSpec`): what each handler decides, as a function of the
  store, the session dictionary and the form fields. A `Reply` holds the
  outcome (which branch was taken), the new store and the new session. Lemmas
  relate several handler calls.
- `app.dfy` (`App`): the handlers as methods over a `Store` and a `Session`
  object. Each calls the store's operations as the source does and is proved to
  produce its `AppSpec` reply.

The clock is an integer parameter `now` (seconds). The random six-digit code of
the forgot-password handler and the random Argon2id salt are caller-supplied
inputs.

Behaviour of the source that the model keeps as written:

- `process_forgot_password` tests the found username for truthiness
  (`if not username`). An account whose username is the empty string is
  therefore answered with "Account not found" and gets no code.
- `process_reset_password` ignores the result of `update_password`. It reports
  success for an unknown username, and the store is left unchanged.
- `process_reset_password` does not check that a code was verified. Any client
  that posts equal, strong passwords for an existing username overwrites that
  user's hash (`AppSpec.ResetNeedsNoOtp`).
- The recovery path reveals whether a contact exists ("Account not found");
  login does not reveal whether a username exists.

## Model

| member | source | states |
|---|---|---|
| Db.Store.constructor | password/db.py:7-9 | a store with no records, as a missing database file loads |
| Db.Store.GetUser | password/db.py:20-22 | returns the record under the username exactly when the key is present |
| DbSpec.FirstContactIndex | password/db.py:26-28 | the index is the first key in order whose email or phone equals the identifier, or the key count when none does; no earlier key matches |
| DbSpec.FindByContact | password/db.py:24-29 | absent exactly when no record has the identifier as email or phone; otherwise a present, matching username before which no key in order matches |
| Db.Store.GetUserByEmailOrPhone | password/db.py:24-29 | the scan loop returns (username, record) of the first match in key order, or nothing exactly when no record matches; it agrees with FindByContact and changes nothing |
| DbSpec.CreateUser | password/db.py:31-45 | fails and changes nothing when the key exists; otherwise adds exactly that record, with no pending code, appends the key to the order and keeps the order duplicate-free |
| Db.Store.CreateUser | password/db.py:31-45 | updates the store in place exactly as DbSpec.CreateUser and keeps the store invariant |
| DbSpec.UpdatePassword | password/db.py:47-53 | fails and changes nothing for an absent key; otherwise changes only that record's hash; profiles, other users and every pending code are as before |
| Db.Store.UpdatePassword | password/db.py:47-53 | updates the store in place exactly as DbSpec.UpdatePassword |
| DbSpec.StoreOtp | password/db.py:55-65 | fails and changes nothing for an absent key; otherwise the user then accepts exactly the new code, and only strictly before now + 300, whatever was pending before; other users unchanged |
| Db.Store.StoreOtp | password/db.py:55-65 | updates the store in place exactly as DbSpec.StoreOtp |
| DbSpec.VerifyOtp | password/db.py:67-76 | accepts exactly when a code is pending, equal and unexpired (strict); acceptance removes the code so no code is accepted afterwards; rejection leaves the store unchanged |
| Db.Store.VerifyOtp | password/db.py:67-76 | updates the store in place exactly as DbSpec.VerifyOtp |
| DbSpec.OtpExpiryBoundary | password/db.py:59-71 | a code stored at t is accepted at t + 299 and rejected at exactly t + 300 |
| DbSpec.OtpSingleUse | password/db.py:71-75 | after one acceptance the same code is rejected at any later time |
| DbSpec.OtpRetryAfterFailure | password/db.py:69-76 | a rejected guess leaves the code pending, so a later correct attempt gets the same answer as if the guess had not happened |
| DbSpec.OtpSuperseded | password/db.py:55-71 | after a second code is stored, the first one is rejected even inside its own window |
| DbSpec.FirstContactIndexSameProfiles | password/db.py:26-28 | changing records without changing any email or phone leaves the first-match position unchanged |
| DbSpec.ContactSearchStable | password/db.py:24-29 | a store with the same key order and the same profiles resolves every contact to the same user |
| DbSpec.FirstContactIndexAppend | password/db.py:26-28 | appending a fresh key to an order that already has a match does not move the first match |
| DbSpec.CreateKeepsContactSearch | password/db.py:31-45 | creating a user never changes whom an already matching contact resolves to |
| Strings.SkipForward | password/app.py:90 | the index reached is the first non-space at or after the start, or the end; everything skipped is whitespace |
| Strings.SkipBackward | password/app.py:90 | the index reached ends the last non-space above the bound, or is the bound; everything skipped is whitespace |
| Strings.Strip | password/app.py:90 | a slice of the input with only whitespace cut from both ends, non-space at both ends, empty exactly when the input is all whitespace |
| Strings.StripUnique | password/app.py:90 | Strip's contract has exactly one solution: any slice of the input with only whitespace cut from its ends and non-space at both ends is Strip's result |
| AppSpec.FullName | password/app.py:90 | the username when first name, space and last name are all whitespace; otherwise the slice of first name + " " + last name with whitespace cut from both ends and none left at either end, which by StripUnique is its strip() |
| AppSpec.RegisterReply | password/app.py:58-77 | taken exactly when the username exists, weak exactly when it is new and the password scores below 3, ok otherwise; only ok changes the store, by inserting the new user with the password's hash |
| App.Register | password/app.py:46-77 | the handler produces exactly RegisterReply's outcome, store and session |
| AppSpec.LoginReply | password/app.py:80-96 | never changes the store; ok exactly when the user exists and the password verifies, then logged_in and username are set; every failure leaves the same session |
| App.Login | password/app.py:79-96 | the handler produces exactly LoginReply's outcome and session and does not modify the store |
| AppSpec.ForgotPasswordReply | password/app.py:104-117 | no match (or an empty username) stores no code; otherwise the first matching user is given the drawn code, valid until now + 300, and becomes recovery_username |
| App.ProcessForgotPassword | password/app.py:103-117 | the handler produces exactly ForgotPasswordReply's outcome, store and session |
| AppSpec.VerifyOtpReply | password/app.py:120-129 | ok exactly when the store accepts the code; the store becomes what verify_otp leaves; recovery_username is always set and the view follows the answer |
| App.ProcessVerifyOtp | password/app.py:119-129 | the handler produces exactly VerifyOtpReply's outcome, store and session |
| AppSpec.ResetPasswordReply | password/app.py:138-156 | mismatch exactly when the entries differ, weak when equal but scoring below 3, ok otherwise; only ok writes the hash via update_password, and for an unknown user ok leaves the store unchanged |
| App.ProcessResetPassword | password/app.py:131-156 | the handler produces exactly ResetPasswordReply's outcome, store and session |
| App.Logout | password/app.py:158-161 | the session is empty afterwards and the store is not touched |
| AppSpec.RegisterTwice | password/app.py:58-77 | after a successful registration, registering the same username again is refused as taken |
| AppSpec.RegisterTakenIgnoresPassword | password/app.py:58-66 | for an existing username the reply does not depend on the password, the strength checker or the hasher |
| AppSpec.RegisterThenLogin | password/app.py:71-92 | with a hasher that keeps its promise, a freshly registered password logs in |
| AppSpec.LoginFailuresIndistinguishable | password/app.py:81-96 | an unknown username and a wrong password for a known one give identical replies |
| AppSpec.ResetMismatchIgnoresPasswordManager | password/app.py:138-142 | with differing entries the reply does not depend on the strength checker or the hasher, and the store is unchanged |
| AppSpec.ResetNeedsNoOtp | password/app.py:131-156 | for any store, equal strong entries overwrite an existing user's hash without any code being pending or verified; the pending code is untouched |
| AppSpec.ResetThenLogin | password/app.py:144-152 | with a hasher that keeps its promise, the password set by a successful reset logs in |
| AppSpec.RecoveryCodeSingleUse | password/app.py:105-129 | the code forgot-password stores for the found user is accepted once before its deadline and rejected on the next attempt |

## Left out

- `load_db`/`save_db` (password/db.py:7-18): the JSON file, and the fallback that reads a missing or corrupt file as an empty store. Every operation here acts on the in-memory store.
- Concurrency: the source re-reads and rewrites the whole file on every operation without a lock, so requests can lose each other's writes. The model is sequential.
- password/auth.py: zxcvbn scoring, the HMAC-SHA256 pepper and Argon2id hashing (time cost 3, 64 MiB, 4 lanes, 32-byte hash, 16-byte salt) are foreign libraries. They are uninterpreted functions; only `is_strong == score >= 3` and the total, boolean `verify_password` are modelled.
- `random.choices` in password/app.py:111: the code is an input required to be six ASCII digits. Its randomness is not modelled.
- `time.time()` in password/db.py:61 and 71 returns a float. The model uses whole seconds, so sub-second expiry comparisons are not modelled.
- The FastAPI layer: the app, session middleware, static files and templates, the `index` page (password/app.py:21-44), the `forgot_password_page` route that only sets the view (password/app.py:98-101), the 303 redirects every handler returns, form-field validation, and `uvicorn` start-up.
- password/verify_api.py: an HTTP smoke test against a live server.
- App.Login: the contract fixes the greeting only through FullName, whose contract pins the name down. The surrounding "Welcome back, …!" text is in the reply function but is not restated in an ensures clause.
