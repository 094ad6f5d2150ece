# autho: sessions, the user cache and password credentials

A model of the authentication core of `autho`, a Rust web-authentication
library. It covers:

- the **lazy user cache** (`SessionUser`): an optional user id and a memo of
  the user record, fetched through the backend at most once per id and
  emptied whenever the id changes;
- the **session** (`Session`): a fixed session id, the payload, the cache and
  a needs-save flag that is raised when the logged-in user changes and
  cleared only by a successful write;
- the **credential operations**: password validation by UTF-8 byte length,
  hashing under the generator algorithm, verification against an ordered
  list of verifier algorithms, login by password and password change;
- the **backend contract**, given as an in-memory backend (`MemoryBackend`)
  whose stored sessions and users are plain maps, whose failing operations
  are a fixed set, and which keeps a ghost log of every call it receives;
- **session acquisition**: resume the stored session named by the presented
  id, or mint a new id with fresh data when there is none.

Files: `wrappers.dfy` (Option, Result), `password.dfy` (module `Password`),
`user.dfy` (modules `Users` and `SessionUsers`), `backend.dfy` (module
`Backends`), `session.dfy` (modules `SessionRecords` and `Sessions`),
`func.dfy` (module `Func`), `axum.dfy` (module `Acquisition`).

Abstractions. A hashing algorithm is an `Algorithm(ident, compute)` whose
digest function `compute` is arbitrary; a verifier accepts a hash when the
hash carries its tag and recomputing the digest from the stored salt and the
candidate gives the stored digest. That a generator accepts its own hashes is
therefore proved (`Password.Generate`), not assumed. The process-wide
algorithm registry is passed as an `Algorithms` value, the random salt as a
`salt` argument and the random new session id as a `minted` argument. The
session id is a `const` of `Session`, so no operation can change it.

The stateful operations are methods whose postconditions tie the new state to
small state functions (`SessionUsers.CacheSetId`, `Sessions.AfterSetUser`, …)
and to the backend's call log. The lemmas about those functions state what
holds over whole runs. The main one is `Sessions.RunKeepsInSync`: a session
whose flag is clear holds the user id that was last written.

A password change patches the cached record through
`User::set_hashed_password`, whose default implementation discards the hash
(src/user.rs:24-26). `Users.User` therefore has a `mirrorsPassword` flag, and
the cached record's hash changes only when the flag is set; the backend's
stored record always gets the new hash.

## Model

| member | source | states |
|---|---|---|
| `Password.Utf8LenBounds` | src/password.rs:92-97 | the byte length that the bounds are checked against lies between the character count and four times it |
| `Password.AsciiUtf8Len` | src/password.rs:92-97 | on ASCII text the byte length equals the character count |
| `Password.NewValidPassword` | src/password.rs:88-108 | TooShort iff fewer than 8 bytes; TooLong iff more than 1024 bytes; accepted iff the length is in [8, 1024]; an accepted password is stored unchanged |
| `Password.CharCountDecides` | src/password.rs:92-97 | fewer than 2 characters is always TooShort; more than 1024 characters is always TooLong; 8 to 256 characters is always accepted |
| `Password.AsciiBoundaries` | src/password.rs:1-5 | ASCII passwords of 7 and 1025 bytes are refused (TooShort, TooLong); 8 and 1024 bytes are accepted |
| `Password.Generate` | src/password.rs:116-124 | a hash names its generator and salt, and the generator accepts it for the password it was made from |
| `Password.AlgorithmsInit` | src/password.rs:33-43 | the registry's verifier list is the generator followed by the other algorithms, so it begins with the generator |
| `Password.DefaultAlgorithms` | src/password.rs:58-60 | the configured registry is well formed and holds exactly one algorithm, Argon2 |
| `Password.HashPassword` | src/password.rs:116-124 | `HashedPassword::new` hashes under the registry's generator with the given salt, and that generator accepts the result |
| `Password.FirstAccepting` | src/password.rs:130-138 | the first accepting verifier: it accepts and all earlier ones refuse; None only when every verifier refuses |
| `Password.Verify` | src/password.rs:130-138 | Some iff some verifier accepts; it stops at the first acceptance, after consulting exactly the verifiers up to and including it |
| `Password.HashThenVerify` | src/password.rs:116-138 | round trip: with a well-formed registry, the hash of a password verifies that password at the first verifier |
| `Password.AppendKeepsFirstAccepting` | src/password.rs:132-137 | appending verifiers keeps an accepted pair accepted, by the same verifier |
| `Password.OldHashStillVerifies` | src/password.rs:130-138 | migration: a hash made by an earlier generator verifies under any registry that still lists that generator |
| `Password.OtherPasswordRefused` | src/password.rs:130-138 | with distinct algorithm tags and a collision-free generator, the hash of one password refuses every other password |
| `Password.DebugRedacts` | src/password.rs:156-166 | the Debug text of a valid or hashed password is the same whatever the secret |
| `Users.SetHashedPasswordKeepsIdentity` | src/user.rs:20-26 | setting a hash keeps id and email; the hash is stored only by users that override the setter |
| `SessionUsers.CacheSettersKeepCoherence` | src/user.rs:54-103 | set_id, set_user and the password patch all keep a memoized record equal to the record of the cached id; the patch keeps the id |
| `SessionUsers.CacheSetIdIdempotent` | src/user.rs:54-59 | setting the same id twice has the effect of setting it once |
| `SessionUsers.SessionUser.constructor` | src/user.rs:38-43 | a new cache holds the given id and no memo |
| `SessionUsers.SessionUser.IsAuthenticated` | src/user.rs:46-48 | authenticated iff an id is present |
| `SessionUsers.SessionUser.SetId` | src/user.rs:54-59 | the id and memo afterwards are those of set_id: a changed id empties the memo, an equal id changes nothing |
| `SessionUsers.SessionUser.SetUser` | src/user.rs:100-103 | the memo becomes the given record and the id becomes its id, or None |
| `SessionUsers.SessionUser.Resolve` | src/user.rs:61-86 | no id: Ok(None) and no call; memo filled: the memo and no call; otherwise exactly one load_user with the id; a found record is memoized; "not found" gives Ok(None) with the memo still empty; an error is returned with the id and memo unchanged |
| `SessionUsers.SessionUser.ResolveMut` | src/user.rs:88-94 | resolves as above and then returns what the memo holds |
| `SessionUsers.SessionUser.PatchPassword` | src/user.rs:96-98 | writing through get_mut changes a memoized record's hash and nothing else |
| `SessionUsers.ResolveTwice` | src/user.rs:61-86 | two resolves with a fixed id: one load_user when the first found the user (none if it was memoized), two when it was not found |
| `SessionUsers.ResolveAfterNewId` | src/user.rs:54-86 | after set_id with a new id the next resolve fetches that id |
| `Backends.MemoryBackend.SessionCookieName` | src/backend.rs:63-67 | the cookie name is "sessionid" unless the backend overrides it |
| `Backends.MemoryBackend.LoadUserAnswerCases` | src/backend.rs:42-46 | load_user errors exactly when the backend fails; "not found" is Ok(None), distinct from an error; a found user has the requested id |
| `Backends.MemoryBackend.LoadSessionData` | src/backend.rs:18-22 | one logged call; a missing session is Ok(None), not an error |
| `Backends.MemoryBackend.CreateSessionData` | src/backend.rs:24-30 | one logged call returning the backend's fresh payload, or its error |
| `Backends.MemoryBackend.UpdateSessionData` | src/backend.rs:32-40 | logs exactly the session id, user id and data it received, and upserts them unless it fails |
| `Backends.MemoryBackend.LoadUser` | src/backend.rs:42-46 | one logged call answering an error, "not found" or the stored user |
| `Backends.MemoryBackend.LoadUserByEmail` | src/backend.rs:48-52 | one logged call answering an error, "not found" or the user registered under the email |
| `Backends.MemoryBackend.UpdateUserPassword` | src/backend.rs:54-59 | one logged call with the user id and hash; on success only that user's stored hash is replaced, on error the store is unchanged |
| `Sessions.SameUserChangesNothing` | src/session.rs:89-105 | set_user_id with the current id, or set_user with the record already cached, changes neither the cache nor the flag |
| `Sessions.LogoutIdempotent` | src/session.rs:165-168 | logout empties the cache; twice is the same as once; on an anonymous session it leaves the flag alone |
| `Sessions.RunKeepsInSync` | src/session.rs:88-127 | over any sequence of operations, a session whose flag is clear holds the user id that was last saved |
| `Sessions.FlagStaysRaised` | src/session.rs:88-110 | once raised, the flag stays raised until a successful save |
| `Sessions.Session.constructor` | src/session.rs:57-70 | a new session has the given id, user id and data, no memo and a clear flag |
| `Sessions.Session.IsAuthenticated` | src/session.rs:74-76 | true iff the cache holds a user id |
| `Sessions.Session.CurrentUser` | src/session.rs:79-81 | resolves the user through the cache with that cache's call guarantees |
| `Sessions.Session.CurrentUserMut` | src/session.rs:84-86 | no id: Ok(None) and no call; memo filled: the memo and no call; otherwise exactly one load_user, a found record memoized, "not found" or an error leaving the memo empty; an Ok result is what the memo then holds |
| `Sessions.Session.SetUserId` | src/session.rs:89-97 | the id becomes the given one; the flag is raised iff it differs from the previous id |
| `Sessions.Session.SetUser` | src/session.rs:100-105 | the record and its id are installed; the flag is raised iff the id differs from the previous one |
| `Sessions.Session.MarkNeedsSave` | src/session.rs:108-110 | raises the flag and changes nothing else |
| `Sessions.Session.ForceSave` | src/session.rs:121-127 | exactly one update_session_data with the session id, user id and data; the flag is cleared on success and unchanged on error |
| `Sessions.Session.Save` | src/session.rs:113-118 | clear flag: Ok and no backend call; raised flag: exactly one update_session_data, and the flag stays raised iff it failed |
| `Sessions.Session.ForceLogin` | src/session.rs:130-136 | behaves as set_user_id(Some(id)) and always succeeds |
| `Sessions.Session.ForceLoginUser` | src/session.rs:139-145 | behaves as set_user(Some(user)) and always succeeds |
| `Sessions.Session.Logout` | src/session.rs:165-168 | behaves as set_user(None): afterwards the session is anonymous |
| `Sessions.LogoutThenSaveTwice` | src/session.rs:113-168 | logout then two saves: when something changed, one write with no user id, plus a second only if the first failed; when nothing changed, no write |
| `Func.LoginByPassword` | src/func.rs:3-19 | one load_user_by_email; success iff the user exists, has a hash and the hash verifies, and then the user replaces the session's user with the flag raised iff the id changed and the payload kept; every failure, backend error included, leaves the session untouched |
| `Func.UpdateUserPassword` | src/func.rs:21-36 | anonymous: no call and no change; otherwise one update_user_password with the current id and the new hash; on error the session is untouched; on success the flag is raised, the id and payload kept, a memoized record patched, only that user's stored hash replaced, and every email of that user now logs in with the new password |
| `Func.PasswordUpdateEffect` | src/func.rs:26-31 | after a password change the id is kept, the session is dirty and a mirroring memoized record holds the new hash |
| `Func.NewPasswordLogsIn` | src/func.rs:21-31 | after the backend stores the new hash for a user, a lookup by that user's email finds a record whose hash verifies the new password |
| `Func.LoginThenSave` | src/func.rs:3-19 | an anonymous session that logs in with matching credentials becomes authenticated, and its save is the single update_session_data with the new user id |
| `Acquisition.LoadSession` | src/axum.rs:18-40 | no id: no call and the fresh branch; a found record gives a clean session with that id and the stored user id and data; a miss takes the fresh branch; errors propagate |
| `Acquisition.FromRequestParts` | src/axum.rs:51-69 | resumes a stored session, or mints a session with the new id, no user and the data from exactly one create_session_data; errors propagate |
| `Acquisition.RenewsUnknownId` | src/axum.rs:32-36 | an id with no stored session is never reused |

## Left out

- Argon2, the PHC string format and its parsing and serialisation: an algorithm is a tag plus an arbitrary digest function. Hash parameters are folded into the algorithm. `HashedPassword::from_str` and `as_str` are not modelled, and neither is constant-time comparison.
- `Password.OtherPasswordRefused`: holds only under its stated hypotheses, collision-free digests and distinct tags. These are properties of the real algorithms that the model cannot derive.
- The zxcvbn strength check and the `Weak` reason (a feature-gated external estimator). `fields` is accepted and ignored.
- Randomness: `generate_salt` becomes the `salt` argument and `SessionId::new` the `minted` argument. That a minted id differs from the presented one is a hypothesis of `Acquisition.RenewsUnknownId`, not a proof.
- The `OnceLock` one-time initialisation of the registry (concurrency): the registry is an `Algorithms` value passed to the operations that need it.
- async execution, `Cell` and `OnceCell`: sequential methods over ordinary fields and an `Option` memo.
- Cookie handling: `get_session_id` (src/axum.rs:10-16), `SessionId::from_str` and the `FromRef` plumbing. The presented id arrives as `Option<SessionId>`.
- The `Backend` trait's generality: one in-memory backend stands for every implementation, with errors injected per operation. `update_user_password` on an unknown user id succeeds and changes nothing.
- Generic types: user ids are `int` and session data is a byte sequence.
- `Session::login_by_password` and `Session::update_user_password` (src/session.rs:153-159, 174-179) only forward; callers use `Func.LoginByPassword` and `Func.UpdateUserPassword` directly.
- `SessionUser::id` is read as the field `id`. `user_mut` and `get_mut` return the record by value, so writes through the returned reference other than the password patch are not modelled.
- The backend is shared by reference rather than owned by each session.
- `Authenticated` (src/password.rs:67-69): its constructor is public in the model, so that only `verify` can produce the token is not modelled. `ValidPassword`, by contrast, is a subset type whose values all satisfy the length bound `ValidPassword::new` checks.
- `Backends.MemoryBackend.Valid`: the in-memory backend files every user under its own id, so `load_user(id)` always answers a record carrying `id`. The `Backend` trait (src/backend.rs:42-46) does not promise this. The cache coherence invariant `SessionUsers.Coherent`, and the second clause of `Sessions.SameUserChangesNothing` that relies on it, rest on that assumption.
- src/hash_utils.rs, src/postgres.rs and src/lib.rs are not part of this model.
