# Stellar wallet login: a Dafny model

This project models the `stellar-auth` edge function. It implements a
challenge-response login for Stellar wallets, loosely after the Challenge
section of SEP-0010 (Stellar Web Authentication).

- `GET /stellar-auth/challenge` makes a fresh server keypair and a random
  transaction id. It builds a transaction with time bounds
  `[0, floor(now/1000) + 300]`, one `manageData` entry named `"<origin> auth"`
  holding the id, and the memo `SEP-10 challenge`. It signs the transaction
  with the server key and records `{serverPublicKey, serverSecretKey,
  expires = now + 300000}` under the id in a process-wide map.
- `POST /stellar-auth/verify` runs a fixed sequence of guards:
  1. both body fields are present;
  2. the transaction's upper time bound has not passed;
  3. the challenge is stored and has not expired;
  4. a signature verifies under the stored server key;
  5. a signature verifies under the transaction's source account.

  The first guard that fails decides the answer. Only on success is the entry
  deleted and the source account returned as the user's key.
- `OPTIONS` answers `ok` on every path. Any other method and path answers 404.

Files:

- `options.dfy`: `Option`.
- `stellar_sdk.dfy`: the SDK surface the handler calls, as the function fields
  of an `Sdk` record. This covers key derivation, `Keypair.fromPublicKey`
  validity, transaction hash, signing, `Keypair.verify` (which may throw) and
  the XDR codec. Every result holds for every implementation of them.
- `challenge.dfy`: the challenge transaction, the stored entry, and the map's
  `set` and `delete`.
- `verification.dfy`: the verify guards as pure functions, plus lemmas on
  which guard decides and on single use.
- `stellar_auth.dfy`: routing, plus the class `AuthService`. The class holds
  the `challenges` map and updates it in place on issue and on successful
  verify.
- `client_binding.dfy`: the finding below, as written and corrected.

Randomness (`Keypair.random`, `crypto.randomUUID`) and the clock (`Date.now`)
are inputs: the `Env` of a request, or parameters of the methods.

## Model

| member | source | states |
|---|---|---|
| `Challenge.Record` | supabase/functions/stellar-auth/index.ts:59-63 | storing a challenge adds its id to the keys. The new entry is under that id, every other entry is unchanged, and the map grows by one when the id was new |
| `Challenge.Consume` | supabase/functions/stellar-auth/index.ts:150 | deleting removes exactly that id. The other entries are unchanged, and the map shrinks by one when the id was present |
| `Challenge.ChallengeContents` | supabase/functions/stellar-auth/index.ts:28-56 | the issued challenge's source is the server key and its time bounds are `[0, floor(now/1000)+300]`. Its one operation is a data entry named `domain + " auth"` whose value is the id. The memo is `SEP-10 challenge` and its one signature is the server's. The domain is the origin header, or `example.com` when that header is absent or empty |
| `Challenge.IssuedWindow` | supabase/functions/stellar-auth/index.ts:43-46 | the challenge's `maxTime` (seconds) times 1000 is at most the stored expiry `now + 300000` (milliseconds), and less than 1000 ms below it |
| `Challenge.RecordKeepsConsistent` | supabase/functions/stellar-auth/index.ts:59-63 | recording a new entry keeps every stored public key the key of its stored secret |
| `Verification.SomeVerifies` | supabase/functions/stellar-auth/index.ts:122-137 | `.some` over the signatures is true exactly when some signature verifies under the key. A verification that throws counts as false |
| `Verification.CheckVerifyWith` | supabase/functions/stellar-auth/index.ts:81-147 | the guard sequence accepts exactly when all guards pass. On acceptance the key returned is the one the identity extractor reads from the decoded transaction |
| `Verification.CheckVerify` | supabase/functions/stellar-auth/index.ts:118-147 | verify succeeds iff every guard passes, with the user key taken from the transaction's source. The key it returns is `signedTx.source` |
| `Verification.AfterVerify` | supabase/functions/stellar-auth/index.ts:139-150 | a rejected request leaves the map unchanged. An accepted one had its id stored, and deletes exactly that id |
| `Verification.MissingFieldRejected` | supabase/functions/stellar-auth/index.ts:81-89 | a missing or empty `signedTransaction` or `transactionId` gives the missing-fields error before any other check, and leaves the map unchanged |
| `Verification.UndecodableRejected` | supabase/functions/stellar-auth/index.ts:92 | a transaction that fails to decode ends in the internal-error (500) answer |
| `Verification.TimeGuard` | supabase/functions/stellar-auth/index.ts:95-103 | the answer is "expired transaction" iff the transaction has time bounds with `maxTime*1000 < now`. So `maxTime*1000 == now` passes, and that answer comes whatever the store holds |
| `Verification.ChallengeGuard` | supabase/functions/stellar-auth/index.ts:106-115 | past the time check, the answer is "invalid or expired challenge" iff the id is not stored or `now > expires` (strict). The map is then unchanged, so expired entries stay |
| `Verification.SignatureGuard` | supabase/functions/stellar-auth/index.ts:118-147 | past the store check, a source that `Keypair.fromPublicKey` rejects gives a 500, even when the server signature is missing too. Otherwise the request succeeds with the source key exactly when one signature verifies under the stored server key and one under the source, and fails with "invalid signatures" otherwise |
| `Verification.ExpiredChallengeNeverAccepted` | supabase/functions/stellar-auth/index.ts:107-115 | a stored challenge presented after its expiry is rejected whatever its signatures, and the map is unchanged |
| `Verification.AcceptedMeansServerSigned` | supabase/functions/stellar-auth/index.ts:118-137 | when stored public keys match their secrets, a success means a signature verified under the stored `serverPublicKey` and one under the returned key |
| `Verification.ReplayRejected` | supabase/functions/stellar-auth/index.ts:106-115 | a success removes the id from the map. After it, any request for the same id fails before the signature checks; an internal error there can only be a failed decode. Repeating the same request fails with "invalid or expired challenge" (or "expired transaction") |
| `Verification.FailureKeepsChallenge` | supabase/functions/stellar-auth/index.ts:139-147 | a failed attempt leaves the map as it was, so every later request is judged exactly as if the failed one had not happened |
| `StellarAuth.RouteOf` | supabase/functions/stellar-auth/index.ts:18-172 | OPTIONS takes the preflight branch on every path. The challenge branch is exactly `GET /stellar-auth/challenge`, the verify branch exactly `POST /stellar-auth/verify`, and everything else is not found |
| `StellarAuth.AuthService.constructor` | supabase/functions/stellar-auth/index.ts:14 | the service starts with an empty challenge map |
| `StellarAuth.AuthService.IssueChallenge` | supabase/functions/stellar-auth/index.ts:26-74 | issuing adds exactly the entry `{publicKeyOf(secret), secret, now + 300000}` under the fresh id and leaves every other entry unchanged. It returns the XDR of the signed challenge and the id |
| `StellarAuth.AuthService.VerifyChallenge` | supabase/functions/stellar-auth/index.ts:76-163 | the answer is the guard sequence's outcome. The map loses the id on success and is unchanged on every failure |
| `StellarAuth.AuthService.Handle` | supabase/functions/stellar-auth/index.ts:16-185 | preflight answers `ok` and unknown routes answer 404, neither touching the map. The challenge route issues as above. On the verify route, a body that fails to parse gives a 500 with the map unchanged, and otherwise the verify step decides |
| `ClientBinding.UnsignedChallengeAccepted` | supabase/functions/stellar-auth/index.ts:37-56 | as written, the issued challenge sent back in time with any extra signatures, or none, logs in as the server's ephemeral public key |
| `ClientBinding.IssuedChallengeYieldsServerKey` | supabase/functions/stellar-auth/index.ts:37-56 | as written, whenever verify accepts a transaction whose body is an issued challenge, the key returned is that challenge's server key. No wallet can log in as its own account without forging the server's signature |
| `ClientBinding.CheckVerifyBound` | supabase/functions/stellar-auth/index.ts:119 | corrected guard sequence: the same guards, with the user key read from the data operation's source account |
| `ClientBinding.BoundRoundTrip` | supabase/functions/stellar-auth/index.ts:119-137 | corrected: a challenge bound to the client's account and signed by that client logs in as exactly that account |
| `ClientBinding.BoundRequiresClientSignature` | supabase/functions/stellar-auth/index.ts:130-147 | corrected: a bound challenge returned with only the server's signature fails with "invalid signatures" when that signature does not verify under the client's key |

## Findings

| source | as written | input that shows it | evidently intended | confidence | as-written member | corrected member |
|---|---|---|---|---|---|---|
| supabase/functions/stellar-auth/index.ts:37,119 | the user key is `signedTx.source`, but the challenge is built on `new Account(serverKeypair.publicKey(), '-1')`, so its source is the server's ephemeral key. The check at lines 130-137 then accepts the server's own signature as the user's | call `GET /stellar-auth/challenge`, then within five minutes `POST /stellar-auth/verify` the returned `transaction`, unchanged and unsigned by any wallet, with its `transactionId`. The login succeeds, and `userPublicKey` is the server's ephemeral key | the user key comes from the client account the challenge is bound to (the data operation's source, as SEP-0010 prescribes), and a signature under that account is required | high (not executed) | `ClientBinding.UnsignedChallengeAccepted` | `ClientBinding.BoundRoundTrip` |

The class `AuthService` models the handler as deployed, so it keeps the
as-written identity (`Verification.CheckVerify`). The corrected identity is
`ClientBinding.CheckVerifyBound`. It shares every other guard with the
as-written one through `Verification.CheckVerifyWith`.
`ClientBinding.BoundRequiresClientSignature` is the corrected counterpart of
the unsigned login.

What the handler does (and the model follows):

- An entry is deleted only on success (index.ts:150). A failed attempt leaves
  it in the map, where it can still be completed.
- Nothing removes an expired entry. It stays in the map, and every later
  attempt on it is refused.
- Verification never reads the data entry, so its `"<domain> auth"` name is
  not checked against any domain. The Challenge section of SEP-0010 has the
  client check that name against the server's home domain.
- A missing server signature and a missing user signature give the same
  "invalid signatures" error (index.ts:139-147).
- The transaction's own time bound (index.ts:95) is checked before the
  stored expiry (index.ts:107).

## Left out

- HTTP plumbing is not modelled: the server, CORS headers, JSON
  serialisation, the response message texts and `console` logging. Each
  answer is a `Response` constructor, with `Status` giving its HTTP code.
- The SDK is not modelled. Its key derivation, hashing, ed25519 and XDR code
  are foreign library calls, represented by the `Sdk` record's function
  fields.
- The Horizon `Server` object is unused by the routes.
- The test network passphrase is folded into `Sdk.hash`.
- The clock is read once per request. The source calls `Date.now()` twice on
  each route, which can differ by a few milliseconds.
- Issuing always succeeds. A `manageData` or builder exception on issue (for
  instance an origin too long for a data entry name) would reach the 500
  handler; it is not modelled.
- JSON body fields are either strings or absent. Non-string values and their
  JavaScript truthiness are not modelled, and neither are a JSON body that is
  not an object or a parse failure, beyond the single "body did not parse"
  case.
- The data entry's value `Buffer.from(transactionId)` is modelled as the id
  string itself.
- Concurrent requests sharing the map are modelled as one after another.
  Requests do interleave: `serve` starts the handler for each request without
  waiting for earlier ones, and the verify route yields at `await req.json()`
  (index.ts:78). But everything from index.ts:79 to index.ts:163 is
  synchronous. So the lookup (index.ts:106-107) and the delete (index.ts:150)
  cannot interleave with another request in the same isolate.
- The model is one isolate's `challenges` map, kept for the life of the
  process. The store is only temporary (index.ts:13). A verify served by
  another isolate, or after a restart, finds no entry and gets "invalid or
  expired challenge"; the model cannot produce that case.
- The React pages and components of the web front end are not part of this
  model. They are display code and floating-point token arithmetic.
