# auth-service: stores, value types and route decisions in Dafny

This project models the core of the `auth-service` crate: the three in-memory
stores (users, pending 2FA challenges, banned session tokens), the value types
that guard the service's input (`Password`, `TwoFACode`, `LoginAttemptId`,
`Email`), and the decision logic of the `signup`, `login` and `logout`
handlers together with the mapping of `AuthAPIError` to HTTP responses.

Layout, one module per source file:

| file | module | models |
|---|---|---|
| wrappers.dfy | `Wrappers` | Rust's `Option` and `Result` |
| text.dfy | `Text` | `String::len` as UTF-8 byte length, `is_ascii_digit`, integer `to_string` |
| password.dfy | `Password` | auth-service/src/domain/password.rs |
| email.dfy | `Email` | auth-service/src/domain/email.rs (validator abstract) |
| data_stores.dfy | `DataStores` | auth-service/src/domain/data_stores.rs |
| hashmap_user_store.dfy | `HashMapUserStore` | auth-service/src/services/hashmap_user_store.rs |
| hashmap_two_fa_code_store.dfy | `HashMapTwoFACodeStore` | auth-service/src/services/hashmap_two_fa_code_store.rs |
| hashset_banned_token_store.dfy | `HashsetBannedTokenStore` | auth-service/src/services/hashset_banned_token_store.rs |
| cookie_jar.dfy | `CookieJar` | the cookie jar the routes take and return |
| auth_api.dfy | `AuthApi` | `AuthAPIError` and `into_response` in auth-service/src/lib.rs |
| signup.dfy, login.dfy, logout.dfy | `Signup`, `Login`, `Logout` | auth-service/src/routes/ |
| session.dfy | `Session` | the routes composed: signup, login, logout, logout again |

The stores are classes whose fields are the source's collections
(`users: map<string, User>`, `codes: map<Email, (LoginAttemptId, TwoFACode)>`,
`bannedTokens: set<string>`). Writes (`add_user`, `add_code`, `remove_code`,
`store_token`) are methods with `modifies this` that state the whole new
state; reads (`get_user`, `validate_user`, `get_code`, `check_token`) are
functions that read the object, so the read-only `login` handler is a function
over the user store. `signup` and `logout` write to a store and are methods.
`logout`'s decision logic is also a function, `Logout.LogoutFlow`, that takes
the answer of `store_token` as a parameter. The in-memory store never fails,
so this is how the failure branch is modelled.

Rust's `String::len` counts UTF-8 bytes. `Text.Utf8Len` counts them the
same way, so `Password::parse` and the signup check compare bytes, as the
code does. The service's design speaks of characters. On ASCII text the two
agree (`Password.ParseAscii`).

The store error enums are closed datatypes: `UserStoreError` has four
variants, `TwoFACodeStoreError` two and `BannedTokenStoreError` one.

Where the design and the code differ, the model follows the code:
- the in-memory user store keeps and compares plaintext passwords, with no hashing;
- `login` never reads `requires_2fa` and never issues a 2FA challenge;
- the in-memory banned-token store has no expiry;
- `logout` without a session cookie answers `MissingToken`, although
  auth-service/tests/api/logout.rs:4-9 expects 200.

## Model

| member | source | states |
|---|---|---|
| Text.AsciiUtf8Len | auth-service/src/domain/password.rs:6 | on ASCII text the byte length `len()` equals the character count |
| Text.Utf8LenBounds | auth-service/src/domain/password.rs:6 | a string of n characters has between n and 4n bytes, exactly n iff it is ASCII |
| Text.DigitsUtf8Len | auth-service/src/domain/data_stores.rs:92 | on a string of ASCII digits `len()` counts characters |
| Text.NatToDecimalRoundTrip | auth-service/src/domain/data_stores.rs:105 | `to_string` of a non-negative number is all digits and reads back as the same number |
| Text.NatToDecimalLength | auth-service/src/domain/data_stores.rs:104-105 | a number with k digits renders to exactly k characters |
| Password.Parse | auth-service/src/domain/password.rs:5-21 | accepts iff the byte length is at least 8; the accepted value's `as_ref` is the input unchanged; rejection carries the message quoting the input |
| Password.ParseByCharCount | auth-service/src/domain/password.rs:5-14 | eight characters always pass; one character never does |
| Password.ParseAscii | auth-service/src/domain/password.rs:6 | on ASCII input, accepted iff at least eight characters |
| Password.ParseExamples | auth-service/src/domain/password.rs:27-43 | "" and "e234" are rejected, "ThisIsaValidPassword" is accepted |
| Email.Parse | auth-service/src/domain/email.rs:7-20 | accepts iff the validator accepts; wraps the input unchanged; rejection message quotes the input |
| DataStores.ParseLoginAttemptId | auth-service/src/domain/data_stores.rs:61-84 | accepts iff the text is a UUID; `as_ref` returns the input unchanged; rejection is "Invalid UUID" |
| DataStores.ParseTwoFACode | auth-service/src/domain/data_stores.rs:90-113 | accepts iff exactly six characters, all ASCII digits; `as_ref` returns the input unchanged |
| DataStores.DefaultTwoFACode | auth-service/src/domain/data_stores.rs:100-107 | for any draw in 100000..=999999 the code passes `parse` and its digits read back as the draw |
| HashMapUserStore.HashMapUserStore.constructor | auth-service/src/services/hashmap_user_store.rs:5-9 | the default store is empty and every key is its user's email |
| HashMapUserStore.HashMapUserStore.AddUser | auth-service/src/services/hashmap_user_store.rs:12-20 | a registered email is refused with `UserAlreadyExists` and the map is unchanged; otherwise the user is stored under its email, the map grows by one and other entries are unchanged; keys stay equal to their users' emails |
| HashMapUserStore.HashMapUserStore.GetUser | auth-service/src/services/hashmap_user_store.rs:22-30 | returns the stored user iff the email is present, otherwise `UserNotFound` |
| HashMapUserStore.HashMapUserStore.ValidateUser | auth-service/src/services/hashmap_user_store.rs:32-43 | `UserNotFound` iff the email is absent (never `InvalidCredentials` for it); Ok iff present and the stored password equals the candidate; otherwise `InvalidCredentials` |
| HashMapUserStore.AddThenGet | auth-service/src/services/hashmap_user_store.rs:99-112 | adding an absent user succeeds and `get_user` then returns exactly that user |
| HashMapUserStore.AddTwice | auth-service/src/services/hashmap_user_store.rs:72-82 | a second add under the same email fails with `UserAlreadyExists` and the first user stays |
| HashMapUserStore.AddThenValidate | auth-service/src/services/hashmap_user_store.rs:141-151 | after registration, validation succeeds iff the candidate is the stored password, else `InvalidCredentials` |
| HashMapTwoFACodeStore.HashMapTwoFACodeStore.constructor | auth-service/src/services/hashmap_two_fa_code_store.rs:4-7 | the default store has no pending challenge |
| HashMapTwoFACodeStore.HashMapTwoFACodeStore.AddCode | auth-service/src/services/hashmap_two_fa_code_store.rs:11-19 | always Ok; the email's entry becomes the new pair, replacing any old one; other emails keep theirs |
| HashMapTwoFACodeStore.HashMapTwoFACodeStore.RemoveCode | auth-service/src/services/hashmap_two_fa_code_store.rs:21-24 | always Ok, also for an absent email; exactly that email's entry is gone |
| HashMapTwoFACodeStore.HashMapTwoFACodeStore.GetCode | auth-service/src/services/hashmap_two_fa_code_store.rs:26-34 | returns the pending pair iff one exists, otherwise `LoginAttemptIdNotFound` |
| HashMapTwoFACodeStore.AddThenGet | auth-service/src/services/hashmap_two_fa_code_store.rs:43-58 | `get_code` returns the pair just added |
| HashMapTwoFACodeStore.AddTwiceKeepsNewest | auth-service/src/services/hashmap_two_fa_code_store.rs:99-124 | after two adds for one email only the newest pair is returned |
| HashMapTwoFACodeStore.RemoveThenGet | auth-service/src/services/hashmap_two_fa_code_store.rs:73-97 | after `remove_code`, `get_code` fails with `LoginAttemptIdNotFound` |
| HashsetBannedTokenStore.HashsetBannedTokenStore.constructor | auth-service/src/services/hashset_banned_token_store.rs:5-8 | the default store bans nothing |
| HashsetBannedTokenStore.HashsetBannedTokenStore.StoreToken | auth-service/src/services/hashset_banned_token_store.rs:12-15 | always Ok; adds the token and removes none (the set only grows) |
| HashsetBannedTokenStore.HashsetBannedTokenStore.CheckToken | auth-service/src/services/hashset_banned_token_store.rs:17-20 | never fails; true iff the token is banned |
| HashsetBannedTokenStore.CheckOnDefault | auth-service/src/services/hashset_banned_token_store.rs:5-20 | on a default store every token checks as not banned |
| HashsetBannedTokenStore.StoreThenCheck | auth-service/src/services/hashset_banned_token_store.rs:36-44 | a stored token checks as banned, also after further tokens are stored |
| HashsetBannedTokenStore.StoreTwice | auth-service/src/services/hashset_banned_token_store.rs:12-15 | storing a token twice gives the same set as storing it once |
| CookieJar.Get | auth-service/src/routes/logout.rs:16-19 | finds a cookie's value iff a cookie of that name is in the jar |
| CookieJar.Add | auth-service/src/routes/login.rs:47 | the added cookie is found under its name; other cookies are unchanged |
| CookieJar.Remove | auth-service/src/routes/logout.rs:44 | the named cookie is gone; other cookies are unchanged |
| AuthApi.IntoResponse | auth-service/src/lib.rs:95-113 | InvalidCredentials is 400 "Invalid Credentials", UserAlreadyExists 409 "User already exists", IncorrectCredentials 401 "IncorrectCredentials", UnexpectedError 500 "Unexpected error"; the body's `error` is the message; no arm for MissingToken or InvalidToken |
| AuthApi.IntoResponseStatusInjective | auth-service/src/lib.rs:97-106 | the covered variants get pairwise distinct status codes |
| Signup.InvalidInputMeaning | auth-service/src/routes/signup.rs:18-23 | the input check rejects exactly an email without '@' or a password `Password::parse` rejects (the emptiness test is redundant) |
| Signup.AddUserError | auth-service/src/routes/signup.rs:35-41 | store `UserAlreadyExists` becomes API `UserAlreadyExists`; every other store error becomes `UnexpectedError` |
| Signup.Signup | auth-service/src/routes/signup.rs:11-48 | invalid input gives `InvalidCredentials` with the store untouched; a taken email gives `UserAlreadyExists` with the store unchanged; otherwise 201 "User created successfully!" and the store gains the request's email, password and 2FA flag |
| Login.ValidateError | auth-service/src/routes/login.rs:31-38 | `UserNotFound` and `InvalidCredentials` both become `IncorrectCredentials`; anything else becomes `UnexpectedError` |
| Login.Login | auth-service/src/routes/login.rs:10-50 | an unparsable email or password gives `InvalidCredentials`; a failed validation gives `IncorrectCredentials`; a failed cookie issue gives `UnexpectedError`; success iff all pass, then 200 and the jar gains the cookie; every failure returns the jar unchanged; the store is only read |
| Login.LoginHidesAccountExistence | auth-service/src/routes/login.rs:31-36 | an absent account and a wrong password give the same answer and the same jar |
| Logout.LogoutFlow | auth-service/src/routes/logout.rs:10-47 | no session cookie gives `MissingToken`; a token failing validation gives `InvalidToken` and is not banned; only a validated token is handed to `store_token`; a failing store gives `UnexpectedError` and keeps the cookie; success iff banned and stored, then 200 and the cookie is removed; failures keep the jar |
| Logout.SecondLogoutFails | auth-service/src/routes/logout.rs:16-27 | after a successful logout, the returned jar gives `MissingToken`; the old jar gives `InvalidToken` when `validate_token` refuses banned tokens |
| Logout.Logout | auth-service/src/routes/logout.rs:10-47 | over the in-memory store, the jar and result are `LogoutFlow`'s with a successful store, and the store gains exactly the banned token |
| Session.SignupLoginLogout | auth-service/src/routes/logout.rs:24-46 | signup then login yields a session cookie; logout with it succeeds and bans the token; a repeated logout fails with either jar |

## Left out

- Email validity (the `validator` crate's grammar): `Email.Parse` takes the validator as a parameter `isValid`.
- UUID validity and generation (`Uuid::parse_str`, `Uuid::new_v4`): `ParseLoginAttemptId` takes `isUuid`; `LoginAttemptId::default` is not modelled, being only a random draw.
- The random draw of `TwoFACode::default` is the parameter `n`; the `requires` is the range `gen_range` guarantees.
- `generate_auth_cookie` and `validate_token` (auth-service/src/utils/auth.rs is not part of this model): parameters `generateAuthCookie` and `tokenValid`. The model does not assume `validate_token` refuses banned tokens, except where a lemma states that assumption as `RejectsBanned`.
- `JWT_COOKIE_NAME` (auth-service/src/utils/constants.rs is not part of this model): `CookieJar.JwtCookieName` is a placeholder. No proof depends on its value.
- AuthApi.IntoResponse: the source's match has no arm for `MissingToken` and `InvalidToken`, so the model gives them no response (`None`) rather than inventing status codes. auth-service/src/domain/error.rs is not part of this model; the six variants are read off the routes.
- One `UserStoreError` type stands for both the domain enum and the local copy in hashmap_user_store.rs; both have the same four variants.
- `User` keeps its email and password as strings, as the in-memory store uses them, not as the `Email`/`Password` wrappers of auth-service/src/domain/user.rs.
- Logout.Logout: its `store_token` never fails, so the `UnexpectedError` branch is unreachable there; that branch is stated for any store by `Logout.LogoutFlow`.
- The Postgres user store and the Redis banned-token store: database and network I/O, argon2 hashing on a thread pool, server-side TTLs.
- Concurrency: the `Arc<RwLock<…>>` sharing of stores between requests; stores are modelled single-threaded.
- HTTP plumbing: routing, static files, JSON extraction and its 422 answers, `Application::build`/`run`, `main`.
- The 2FA branch of login and any expiry of pending challenges: the source has neither, so the model invents neither.
- `verify_2fa` (always 200) and `verify_token` (a wrapper over `validate_token`): no logic of their own.
- The `println!` calls in `login`: output only.
