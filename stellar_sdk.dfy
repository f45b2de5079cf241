/**
  The part of the Stellar SDK that the authentication function relies on.

  Key derivation, transaction hashing, ed25519 signing and verification and the
  XDR codec are foreign library code; they appear here only as the function
  fields of an `Sdk` record, so every property proved about the handler holds
  for every implementation of them.
 */
module StellarSdk {
  import opened Options

  /** An account id in strkey form ("G..."). */
  type PublicKey = string
  /** A secret seed in strkey form ("S..."). */
  type SecretKey = string
  type Hash = seq<bv8>
  type Signature = seq<bv8>

  datatype TimeBounds = TimeBounds(minTime: nat, maxTime: nat)

  /** A manageData operation; `source` is the operation's own source account, if set. */
  datatype Operation = ManageData(source: Option<PublicKey>, name: string, value: string)

  /** Everything of a transaction that its hash covers. */
  datatype TxBody = TxBody(
    source: PublicKey,
    sequence: int,
    fee: nat,
    timeBounds: Option<TimeBounds>,
    operations: seq<Operation>,
    memo: Option<string>)

  datatype Transaction = Transaction(body: TxBody, signatures: seq<Signature>)

  /** What `Keypair.verify` does with a signature: accepts it, rejects it, or throws. */
  datatype VerifyResult = Verified | NotVerified | Threw

  datatype Sdk = Sdk(
    /** The public key of the keypair built from a secret seed. */
    publicKeyOf: SecretKey -> PublicKey,
    /** Whether `Keypair.fromPublicKey` accepts a string (it throws otherwise). */
    isAccountId: string -> bool,
    /** `Transaction.hash()` under the test network passphrase. */
    hash: TxBody -> Hash,
    /** The ed25519 signature of a hash under a secret seed. */
    sign: (SecretKey, Hash) -> Signature,
    /** `Keypair.verify(hash, signature)` for the keypair of a public key. */
    verify: (PublicKey, Hash, Signature) -> VerifyResult,
    /** `Transaction.toXDR()`. */
    toXdr: Transaction -> string,
    /** `TransactionBuilder.fromXDR`; `None` where it throws. */
    fromXdr: string -> Option<Transaction>)

  /** `transaction.sign(keypair)`: appends the signature of the body's hash. */
  function SignWith(sdk: Sdk, tx: Transaction, secret: SecretKey): Transaction
  {
    Transaction(tx.body, tx.signatures + [sdk.sign(secret, sdk.hash(tx.body))])
  }

  /** The SDK accepts, under the key of `secret`, the signature `secret` makes of `body`. */
  predicate AcceptsOwnSignature(sdk: Sdk, secret: SecretKey, body: TxBody)
  {
    sdk.verify(sdk.publicKeyOf(secret), sdk.hash(body), sdk.sign(secret, sdk.hash(body))) == Verified
  }
}
