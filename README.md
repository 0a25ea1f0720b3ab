# User service: credentials and refresh-token rotation

A Dafny model of the core of the user service of the SDU housing backend
(Go): registration with password confirmation and bcrypt hashing, lookup by
id, login by phone number and password, issuance of a signed access token
together with a refresh id, and the rotation of a refresh id into a new
token pair through a shared key-to-bytes cache.

Layout, one module per source file:

- `wrappers.dfy` (`Wrappers`): `Option` (Go's nil-or-value, `error` in
  particular) and `Result` (a value or an error).
- `apperror.dfy` (`AppErrors`): the `AppError` record, its constructors and
  the fixed codes. It also holds the part of Go's error handling the service
  relies on: the text of an error, `%w` wrapping against `%s` formatting,
  `errors.Unwrap` and `errors.Is`.
- `user_model.dfy` (`UserModel`): the `User` and `CreateUserDTO` records,
  `NewUser`, the hash step and the password check. `UserRef` is a heap cell
  standing for `*User`; its `GeneratePasswordHash` updates the password in
  place. The JSON field set of a user leaves the password out.
- `token_cache.dfy` (`TokenCache`): the refresh-token cache as a class with
  one `map` field and `Get`, `Set` and `Del`.
- `user_service.dfy` (`UserService`): `GetOne` and `Create` as functions.
  `Issue`, `Rotate` and `Login` are pure specifications of the stateful
  operations. The `Service` class holds the cache, and its
  `GenerateAccessToken`, `UpdateRefreshToken` and
  `GetByPhoneNumberAndPassword` methods are proved equal to those
  specifications. Lemmas prove single use, the round trip and the
  indistinguishable login failures.

Foreign collaborators are parameters of the model. They are bundled in
`UserService.Env`:

- the storage interface (three functions returning a value and an error);
- bcrypt hashing and comparison;
- the configured JWT secret;
- signer creation and token building for HS256;
- the JSON encoder and decoder of a user;
- the JSON encoder of the token pair.

The clock and the result of `uuid.New()` are method and function
parameters (`now` in Unix seconds, `refreshId`). The one assumption placed
on an oracle is `UserModel.RoundTrips`: the user decoder inverts the user
encoder. The round-trip lemmas require it.

Go strings and byte slices are both `string`, one char per byte, so the
conversion `[]byte(s)` is the identity. A Go `error` is
`Option<GoError>`, with `None` for nil.

Behaviour of the code worth knowing:

- Rotation reads the entry and deletes it in two separate cache calls
  (`Get`, then the deferred `Del`). It is not one atomic step, so the model
  claims single use only for rotations made one after another.
- The claims set no issued-at time. Only ID, Audience and ExpiresAt are set,
  with ExpiresAt = now + 60 minutes.
- `Create` passes a non-not-found storage error through `%s`, not `%w`.
  The text is kept, but the error chain ends there (`AppErrors.Describe`).
  `GetOne` and login use `%w` (`AppErrors.Wrap`).
- Login compares the hash with bcrypt directly, not through
  `User.CheckPassword`. Its mismatch error is `ErrNotFound`, not the
  "password does not match" error.

## Model

| member | source | states |
|---|---|---|
| `AppErrors.FormatNoArgs` | app/internal/apperror/error.go:21 | `fmt.Errorf(message)` with no operands: a message with no `%` comes back unchanged (proved by induction through the recursive contract) |
| `AppErrors.NewAppError` | app/internal/apperror/error.go:19-26 | message, code and developer message are stored verbatim; `Unwrap` of the result is the inner error made from the formatted message |
| `AppErrors.AppErrorTextIsMessage` | app/internal/apperror/error.go:19-30 | `Error()` of an AppError built from a message without format verbs is that message |
| `AppErrors.NotFoundFields` | app/internal/apperror/error.go:9 | `ErrNotFound` has message "not found", code NS-000010, an empty developer message and text "not found" |
| `AppErrors.BadRequestError` | app/internal/apperror/error.go:44-46 | message is the argument, code NS-000002, developer message "something wrong with user data" |
| `AppErrors.SystemError` | app/internal/apperror/error.go:48-50 | message "system error", code NS-000001, developer message the argument |
| `AppErrors.ErrorKindsDistinct` | app/internal/apperror/error.go:8-50 | no bad-request or system error is classified by `errors.Is` as `ErrNotFound`, and the two kinds never coincide |
| `AppErrors.ErrorText` | app/internal/apperror/error.go:28-30 | an AppError's text is the text of its inner error; any other error's text is its message |
| `AppErrors.Unwrap` | app/internal/apperror/error.go:32-34 | an AppError unwraps to its inner error, a `%w` error to the wrapped one, and a plain error to nil |
| `AppErrors.Is` | app/internal/user/service.go:56 | `errors.Is`: holds iff the error is the target or its unwrapped error is, recursively |
| `AppErrors.Wrap` | app/internal/user/service.go:59 | `%w` formatting: the text is prefix plus inner text, and unwrapping gives the inner error back |
| `AppErrors.Describe` | app/internal/user/service.go:114 | `%s` formatting: the same text, but nothing to unwrap |
| `AppErrors.WrapKeepsChain` | app/internal/user/service.go:56-59 | wrapping with `%w` keeps every error of the chain visible to `errors.Is`; `%s` hides all of them |
| `UserModel.NewUser` | app/internal/user/model.go:31-39 | full name, phone number and plaintext password come from the form; UUID, role, avatar URL and JWT are empty; the two timestamps are the two clock readings |
| `UserModel.GenerateHash` | app/internal/user/model.go:58-64 | succeeds exactly when bcrypt at minimum cost succeeds, giving its hash; otherwise returns "" and an error whose chain holds bcrypt's error, with the fixed prefix |
| `UserModel.CheckPassword` | app/internal/user/model.go:41-47 | nil exactly when the compare oracle accepts (stored hash, candidate); otherwise the one fixed "password does not match" error |
| `UserModel.UserRef.constructor` | app/internal/user/model.go:49 | a `*User` cell holding the given user, the receiver of the in-place hash step |
| `UserModel.UserRef.GeneratePasswordHash` | app/internal/user/model.go:49-56 | on success the password becomes the hash of its old value and no other field changes; on failure the user is unchanged and the error is returned |
| `UserModel.ToJson` | app/internal/user/model.go:10-20 | the JSON object holds uuid, phone_number, role, full_name, avatar_url, created_at, updated_at and jwt from the user (no password field exists in it) |
| `UserModel.FromJson` | app/internal/user/model.go:10-20 | decoding into a zero user leaves the password empty and is a right inverse of `ToJson` |
| `UserModel.Marshal` | app/internal/user/service.go:143 | `json.Marshal(u)`: encodes u's JSON field set, so a round-tripping decoder gives that field set back |
| `UserModel.Unmarshal` | app/internal/user/service.go:170 | `json.Unmarshal` into a zero user: succeeds iff the decoder does, with an empty password and the decoded field set; on failure returns the decoder's error |
| `UserModel.MarshalIgnoresPassword` | app/internal/user/model.go:13 | the encoded bytes of a user do not depend on its password |
| `UserModel.ToJsonInjective` | app/internal/user/model.go:10-20 | two users have the same JSON form iff they agree on every field but the password |
| `UserModel.SnapshotRoundTrip` | app/internal/user/service.go:143-170 | with a round-tripping codec, decoding the snapshot of `u` gives `u` with an empty password |
| `TokenCache.SetError` | app/pkg/cache/freecache/cache.go:51-60 | a set is refused exactly when the key exceeds 65535 bytes or key plus value exceed the entry bound, with one of the two library errors |
| `TokenCache.Cache.constructor` | app/pkg/cache/freecache/cache.go:36-38 | a new cache is empty and keeps its entry bound |
| `TokenCache.Cache.Get` | app/pkg/cache/freecache/cache.go:44-49 | succeeds iff the key is present, returning its stored bytes; otherwise nil and the not-found error |
| `TokenCache.Cache.Set` | app/pkg/cache/freecache/cache.go:51-60 | on success the key maps to the value and expiry, all else unchanged; on refusal nothing changes |
| `TokenCache.Cache.Del` | app/pkg/cache/freecache/cache.go:62-67 | removes the key and reports whether it was present |
| `UserService.Claims` | app/internal/user/service.go:126-134 | ID = UUID = the user's UUID, Role = the user's role, Audience = ["users"], ExpiresAt = now + 3600 s |
| `UserService.GetOne` | app/internal/user/service.go:52-63 | returns storage's user; fails iff storage fails; a not-found error comes back unchanged; any other error is wrapped with `%w`: its text is the fixed prefix plus storage's text and it unwraps to storage's error; the not-found classification is kept |
| `UserService.Create` | app/internal/user/service.go:93-117 | mismatched passwords give the bad-request error and empty id; a failed hash gives "" and the hash error; otherwise storage receives `NewUser(dto)` with the hashed password, and its id is passed back; a not-found error is passed back unchanged, any other is described with `%s`: the fixed prefix plus storage's text, with nothing to unwrap |
| `UserService.CreateMismatchIgnoresCollaborators` | app/internal/user/service.go:95-97 | with mismatched passwords the outcome is the same for every storage, hasher and clock (nothing is hashed or stored) and is a bad request, not a not-found |
| `UserService.CreateHashFailureSkipsStorage` | app/internal/user/service.go:99-106 | when hashing fails the outcome does not depend on storage, and the returned id is empty |
| `UserService.Issue` | app/internal/user/service.go:119-160 | succeeds iff signer creation, token building and the cache write succeed; on success the pair carries the built token and the fresh id, which is added as the only new key, mapped to the user's snapshot with expiry 0; on failure the cache is unchanged and the error is the signer's, the builder's or the cache's refusal, whichever step failed first |
| `UserService.Rotate` | app/internal/user/service.go:162-175 | the presented id is absent afterwards on every path; an unknown id changes nothing and fails with not-found; a decode failure returns the decoder's error; a failure leaves the rest of the cache intact; success issues for the decoded snapshot |
| `UserService.Login` | app/internal/user/service.go:65-91 | a storage error returns storage's user, keeps its not-found classification and leaves the cache alone; a wrong password gives `ErrNotFound` with the cache unchanged; otherwise the outcome is an issuance: on success the JWT field is set to the encoded pair, on failure storage's user comes back unchanged with the `%s`-described error; any other storage error is wrapped with `%w`: the fixed prefix plus storage's text, unwrapping to storage's error |
| `UserService.LoginFailuresLookAlike` | app/internal/user/service.go:66-80 | a missing user and a wrong password give the same `ErrNotFound` value and text, and neither changes the cache |
| `UserService.RotateTwiceFails` | app/internal/user/service.go:162-168 | after a rotation, a second rotation of the same id fails with the not-found error and changes nothing |
| `UserService.RotateDecoded` | app/internal/user/service.go:163-174 | rotating an id whose snapshot decodes to `v` is issuing for `v` with the id then removed |
| `UserService.IssueResultIgnoresCacheAndPassword` | app/internal/user/service.go:126-143 | the issued pair depends neither on the cache contents nor on the user's password |
| `UserService.RotateFreshSnapshot` | app/internal/user/service.go:142-174 | rotating an id just stored with u's snapshot equals issuing for `u` on the cache without it |
| `UserService.RotationRoundTrip` | app/internal/user/service.go:119-175 | issue then rotate with the returned id: on success the new pair carries the new id and the token built from u's claims (u's UUID and role), and the new id has replaced the old one with the same snapshot; on failure the old id is still consumed |
| `UserService.Service.constructor` | app/internal/user/service.go:27-33 | the service keeps its collaborators and cache |
| `UserService.Service.GenerateAccessToken` | app/internal/user/service.go:119-160 | result and new cache are `Issue` of the old cache; the returned refresh id is the new key; failure leaves the cache unchanged |
| `UserService.Service.UpdateRefreshToken` | app/internal/user/service.go:162-175 | result and new cache are `Rotate` of the old cache; the presented id is gone after every exit path |
| `UserService.Service.GetByPhoneNumberAndPassword` | app/internal/user/service.go:65-91 | user, error and new cache are `Login` of the old cache |
| `UserService.RefreshScenario` | app/internal/user/service.go:119-175 | on a new cache: issue with id1, rotate id1 into id2, replay id1. The first pair carries id1; the rotation equals a fresh issuance for the user with id2; the replay fails with not-found |

## Left out

- Logging calls: no effect on results.
- The mutex in the cache wrapper, and concurrent requests in general. The
  model covers one request at a time. Because the source reads and deletes
  in two separately locked calls, no claim is made that two concurrent
  rotations of one id cannot both succeed.
- freecache's eviction under its memory budget, its TTL expiry, its
  hit/miss and entry counters, and the iterator
  (app/pkg/cache/freecache/iterator.go). These are library behaviour. The
  cache is a plain map, and the expiry passed to `Set` is only recorded.
- The `Set` size limits are freecache's, which is not part of this model.
  The limit is written as 65535 bytes for the key and a constructor
  parameter for key plus value.
- bcrypt, HS256 signing, JWT encoding, JSON encoding and decoding, and
  `uuid.New()`: all are oracles. The round trip assumes the user codec
  round-trips. The Go encoder replaces invalid UTF-8, so this holds only
  for valid text. The model does not assume uuids are unique. Lemmas that
  need freshness say `refreshId !in entries` in their requires.
- The ignored `json.Marshal` error at app/internal/user/service.go:143.
  Marshalling the token pair at app/internal/user/service.go:150-157
  cannot fail for a string map, so the pair encoder always succeeds.
- `Service.GenerateAccessToken` and `Service.UpdateRefreshToken` return
  the `TokenPair` record, not the JSON bytes the Go methods return
  (app/internal/user/service.go:150-159). The bytes are produced by the
  `marshalTokens` oracle, which only `Login` applies, for the JWT field.
- `AppError.Marshal` (app/internal/apperror/error.go:36-42): JSON encoding
  by the library.
- AppErrors.FormatNoArgs: flags, width, precision and `*` after `%` are not
  parsed. Each `%` takes exactly the next char as its verb. The model is
  exact for messages with no `%` or with bare verbs, as every message in
  the source has.
- AppErrors.Is: compares errors by value. Go's `errors.Is` compares the
  pointers of `*AppError` (and of other error types), so two different
  AppErrors with equal fields count as the same error here.
- Timestamps are unbounded integers. `int64` overflow and sub-second clock
  precision are not modelled.
- `GetOne`, `Create` and `GetByPhoneNumberAndPassword` drop the `ctx`
  argument. The handler's
  empty-query check, HTTP routing, the MongoDB store (including how it
  reports a missing phone number), configuration loading and process start
  and stop are outside the model. Storage is the oracle in `Env`.
