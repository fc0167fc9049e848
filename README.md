# Token lifecycle and route guard of a Cognito-backed Next.js app

A Dafny model of the token layer of an application that signs users in with a
hosted identity provider (Amazon Cognito) through the NextAuth session library:

- **Auth** (`auth.dfy`): the `jwt` callback, which copies the provider's tokens
  into the session token at sign-in (expiry converted from seconds to
  milliseconds) and refreshes them when the request comes later than one minute
  before expiry, keeping the old refresh token unless a new one is issued and
  clearing the token to `{}` when the refresh fails; the `session` callback; and
  the `getSession` / `auth` projections.
- **TokenStore** (`token_store.dfy`): the two-cookie store. `saveTokens` writes
  the record without its refresh token to `auth-tokens` and the refresh token,
  when there is a non-empty one, to `refresh-token`; `getTokens` reads both back
  and turns every failure into `null`. The request's cookie jar is a class
  holding a map.
- **Encryption** (`encryption.dfy`): the key derivation (SHA-256 of the shared
  secret, the same in both directions) and the blob layout IV(16) ‖ tag(16) ‖
  ciphertext, with decryption cutting the buffer at offsets 16 and 32.
- **Middleware** (`middleware.dfy`): the public-prefix allow-list and the
  three-way decision on the outcome of `auth()`.
- **JsValues** (`js_values.dfy`): optional fields and JavaScript truthiness.

Foreign code is passed in as values: the hash, the AES-256-GCM cipher and
base64 are the fields of `Encryption.Primitives`, `JSON.stringify` /
`JSON.parse` the fields of `TokenStore.Json`. What the proofs assume of them is
spelled out as predicates (`Encryption.Sound`, `TokenStore.JsonRoundTrips`)
that the round-trip lemmas take as preconditions. The clock (`Date.now()`), the
random IVs and the two network calls of a refresh are parameters: `now`, the
`iv` arguments, and one `Auth.RefreshResponse` value.

## Model

| member | source | states |
|---|---|---|
| Auth.IngestAccount | lib/auth.ts:57-63 | the field-by-field updates give `Ingested` of the token when an account is present and leave the token unchanged otherwise; profile claims are never touched |
| Auth.Ingested | lib/auth.ts:57-63 | the token after sign-in holds the account's id, access and refresh tokens, `expiresAt = expires_at * 1000` or absent when `expires_at` is missing or 0, and its own profile claims |
| Auth.RefreshIfDue | lib/auth.ts:65-98 | no refresh unless access token, refresh token and a non-zero expiry are present and `now > expiresAt - 60000`, and then the token is returned unchanged; on success id/access tokens come from the response, the refresh token is replaced only by a truthy new one, `expiresAt = now + expires_in * 1000`, claims such as `sub` are kept, a present refresh token is never dropped, and a lifetime of at least 60 s leaves a token that is not due again at once; a thrown failure yields the empty token |
| Auth.JwtCallback | lib/auth.ts:55-99 | starting from the token as ingested at sign-in (or as given): unchanged when no refresh is due; the empty token when a due refresh throws; after a successful one the response's id and access tokens, the new refresh token only if truthy and otherwise the sign-in or earlier one, `expiresAt = now + expires_in * 1000`, and the original profile claims |
| Auth.RefreshBoundary | lib/auth.ts:66-68 | with the credentials present a refresh is due exactly when `now > expiresAt - 60000`; not at `expiresAt - 60000`, not at 61 s before expiry, but at 59 s before |
| Auth.NoRefreshWithoutCredentials | lib/auth.ts:66-67 | a missing or empty access token or refresh token, or a missing or zero expiry, disables the refresh |
| Auth.SessionCallback | lib/auth.ts:101-113 | the session gains the token's id token, access token and expiry and `user.sub = token.sub`; the session's other user fields and its own expiry are kept |
| Auth.GetSession | lib/auth.ts:124-136 | null exactly when there is no session; otherwise the session's access token, id token and user profile |
| Auth.Auth | lib/auth.ts:139-164 | null exactly when there is no session; otherwise a user record with `emailVerifiedCognito = true`, `displayName = name`, and the session's email, sub, tokens and expiry |
| Auth.GetSessionAgreesWithAuth | lib/auth.ts:124-164 | `getSession` and `auth` agree on whether a user is signed in and on the tokens and subject they expose |
| Auth.AuthSeesToken | lib/auth.ts:101-164 | through the `session` callback, `auth()` exposes exactly the token's credentials and subject with the session's own name and email |
| TokenStore.TokenCookie | lib/token.ts:40-48 | every token cookie is `httpOnly`, path `/`, `sameSite` lax, max-age 2592000 s, and secure exactly in production |
| TokenStore.MainPart | lib/token.ts:23 | the main-cookie record is the token record with its refresh token removed and every other field kept |
| TokenStore.Saved | lib/token.ts:22-62 | after saving, `auth-tokens` holds the encryption of the serialised record without its refresh token; `refresh-token` is written only for a non-empty refresh token whose encryption is a non-empty string (always, with base64 that keeps non-empty buffers non-empty) and is otherwise left as it was (present or absent); no other cookie changes |
| TokenStore.Load | lib/token.ts:68-94 | null when `auth-tokens` is missing, when either cookie fails to decrypt, or when the main record fails to parse, and a record whenever none of these happens; with a refresh cookie the result's refresh token is its decrypted value and the other fields come from the main cookie; without one the result is the parsed main record as it is |
| TokenStore.LoadAfterSave | lib/token.ts:22-90 | with sound primitives, reading after saving a record that has a non-empty refresh token gives that record back |
| TokenStore.LoadAfterSaveWithoutRefresh | lib/token.ts:31-34 | saving a record without a non-empty refresh token and reading back gives the new fields with the refresh token the jar already held, no refresh token if it held none, and null if the old refresh cookie does not decrypt |
| TokenStore.CookieStore.SaveTokens | lib/token.ts:22-62 | the jar afterwards is `Saved` of the jar before |
| TokenStore.CookieStore.Set | lib/token.ts:40-48 | `cookieStore.set` writes the named cookie, replacing any cookie of that name, and changes no other |
| TokenStore.CookieStore.GetTokens | lib/token.ts:68-94 | the result is `Load` of the jar, reached by the same early returns as the source |
| Encryption.Subarray | lib/utils/encryption.ts:58-60 | `Buffer.subarray` clamps both bounds: in range it is the plain slice, an end past the buffer stops at the buffer's end, and a start past the end or an end before the start gives the empty buffer |
| Encryption.DeriveKey | lib/utils/encryption.ts:23 | both directions derive the key by this one function of the secret (SHA-256), so equal secrets give equal keys, and the key has the 32 bytes AES-256 needs |
| Encryption.Frame | lib/utils/encryption.ts:39 | the blob is IV then tag then ciphertext, its length the sum of the three |
| Encryption.Unframe | lib/utils/encryption.ts:55-60 | the IV is the first `min(|b|, 16)` bytes and the tag the following bytes up to offset 32; the three pieces put back together give the buffer; IV and tag are exactly 16 bytes when the buffer has 32 bytes or more, and the ciphertext is empty otherwise |
| Encryption.UnframeFrame | lib/utils/encryption.ts:39 | cutting a framed blob gives back its IV, tag and ciphertext whenever IV and tag are 16 bytes |
| Encryption.Encrypt | lib/utils/encryption.ts:21-42 | the base64 blob decodes to IV ‖ tag ‖ ciphertext of the cipher run under SHA-256 of the secret, is `16 + 16 + |ciphertext|` bytes long, and is never the empty string |
| Encryption.Decrypt | lib/utils/encryption.ts:50-71 | decryption runs the cipher under the key derived from the secret on bytes [0,16) as IV, [16,32) as tag and the rest as ciphertext of the base64-decoded blob, and on the clamped pieces of a shorter buffer; its partner is `DecryptEncrypt` |
| Encryption.DecryptEncrypt | lib/utils/encryption.ts:15-71 | decryption with the same secret, whose key is derived by the same hash, gives back the encrypted text for every 16-byte IV |
| Middleware.AnyStartsWith | middleware.ts:21 | the `some`/`startsWith` scan is true exactly when some prefix of the list is a literal prefix of the path |
| Middleware.Middleware | middleware.ts:17-37 | a public path gives "next"; any other path gives "next" exactly when `auth()` returned a user, and a redirect to `/signin` on the request's origin when it returned null or threw; there is no third outcome |
| Middleware.PublicIgnoresOrder | middleware.ts:6-21 | whether a path is public depends on which prefixes are listed, not on their order |
| Middleware.PublicIgnoresAuth | middleware.ts:20-23 | a public path is decided without regard to what `auth()` does |
| Middleware.PrefixExamples | middleware.ts:6-21 | `/signin`, `/signin/x` and `/signinfoo` are public; `/` and `/dashboard` are not |
| Middleware.GuardScenarios | middleware.ts:17-37 | without a session `/dashboard` redirects to `/signin`, a throwing `auth()` on `/` redirects too, and `/signin` passes whatever `auth()` does |
| Middleware.ClearedTokenStillPasses | middleware.ts:26-32 | the guard looks only at whether `auth()` returned a user, not at its tokens: if the session library still builds a session from the empty token a failed refresh leaves, that session passes |

## Left out

- Network calls: the discovery request and the token request (lib/auth.ts:70-82) are one input value, `RefreshThrew` or `RefreshOk`. A token response that arrives without throwing but lacks `expires_in` (an error body) is not modelled, since the code does not inspect it and the result would be NaN arithmetic.
- Auth.RefreshIfDue: both `Date.now()` readings (lines 68 and 91) are the same `now`; the clock advancing during the network round trip is not modelled.
- Numbers are unbounded integers: floating point, NaN and the `typeof === 'number'` test (always true here) are not modelled.
- The `jwt` callback mutates the token object it is given; the model works on token values, so aliasing of that object with the library's copy is not captured (the library uses the returned value).
- NextAuth configuration, the Cognito provider setup and page routes (lib/auth.ts:1-52, 115-120) are framework wiring, and the library's decision whether a session exists is an input (`Option<Session>`, `AuthOutcome`).
- Node's `crypto` (SHA-256, AES-256-GCM, random IVs) and Buffer's base64 are foreign; they are function values with stated round-trip assumptions. Tamper detection is not proved, only that authenticated decryption undoes encryption. The base64 round trip of the ciphertext between `cipher.update`/`final` and `Buffer.from` is folded into the cipher.
- TokenStore.Saved: the refresh cookie is written when the ENCRYPTED refresh token is truthy, as in the source; that this happens for every non-empty refresh token rests on the assumption `Encryption.Base64KeepsNonEmpty` about the abstract base64 encoder.
- `JSON.stringify`/`JSON.parse` are an abstract serialiser on token records; a main cookie that parses to a non-object JSON value is not modelled.
- The `cookies()` API of `next/headers` is the `CookieStore` class over an in-memory map; a write is visible to a later read in the same request.
- `signIn`, `signOut`, `handlers` and the UI pages (app/) are not part of this model.
- Concurrent requests racing to refresh and to write the cookies are not modelled.
- The code never calls `saveTokens`/`getTokens` from the callbacks, so no merge of the cookie store into the session and no persisting after a refresh is modelled.
- The `try { … } catch (error) { throw error }` in `auth()` passes exceptions on unchanged; a throwing session lookup is the `AuthThrew` input of the guard.
