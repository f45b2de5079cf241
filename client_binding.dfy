/**
  Whose key a successful login asserts.

  The handler returns the transaction's source account as the user's key, but
  the challenge it issues has the server's fresh key as its source. The first
  lemma below shows what follows: the issued challenge, sent back with any
  signatures appended or with none, logs in as the server's own key.

  The rest of the module is the binding that the Challenge section of SEP-0010
  (Stellar Web Authentication) prescribes: the client names its account when it
  asks for a challenge, the data operation carries that account as its source,
  and verification takes the user key from there. With it, the round trip
  returns the client's key and a challenge without the client's signature is
  refused.
 */
module ClientBinding {
  import opened Options
  import opened StellarSdk
  import opened Challenge
  import opened Verification

  /** The source account of the challenge's data operation, if it has one. */
  function DataOpSource(tx: Transaction): Option<PublicKey>
  {
    if |tx.body.operations| > 0 then tx.body.operations[0].source else None
  }

  /** A challenge bound to the client account `account`, signed by the server. */
  function BoundChallenge(sdk: Sdk, serverSecret: SecretKey, account: PublicKey, id: string,
                          domain: string, now: nat): Transaction
  {
    SignWith(sdk, Transaction(ChallengeBodyFor(sdk, serverSecret, id, domain, now, Some(account)), []), serverSecret)
  }

  /** The same guard sequence, with the user key read from the data operation. */
  function CheckVerifyBound(sdk: Sdk, store: Store, body: VerifyBody, now: nat): (o: Outcome)
    ensures o.Accept? <==> GuardsPass(sdk, store, body, now, DataOpSource)
    ensures o.Accept? ==>
              && body.signedTransaction.Some?
              && sdk.fromXdr(body.signedTransaction.value).Some?
              && DataOpSource(sdk.fromXdr(body.signedTransaction.value).value) == Some(o.userPublicKey)
  {
    CheckVerifyWith(sdk, store, body, now, DataOpSource)
  }

  /**
    As written: the issued challenge, returned within its time bound with any
    list of extra signatures (possibly none), logs in as the server's
    ephemeral key, whoever the client is.
   */
  lemma UnsignedChallengeAccepted(sdk: Sdk, store: Store, origin: Option<string>, serverSecret: SecretKey,
                                  id: string, now: nat, extra: seq<Signature>, xdr: string, now2: nat)
    requires id != "" && xdr != ""
    requires sdk.fromXdr(xdr) == Some(Transaction(
               IssuedChallenge(sdk, serverSecret, id, ClientDomain(origin), now).body,
               IssuedChallenge(sdk, serverSecret, id, ClientDomain(origin), now).signatures + extra))
    requires AcceptsOwnSignature(sdk, serverSecret, IssuedChallenge(sdk, serverSecret, id, ClientDomain(origin), now).body)
    requires sdk.isAccountId(sdk.publicKeyOf(serverSecret))
    requires now2 <= (now / 1000 + 300) * 1000
    ensures CheckVerify(sdk, Record(store, id, NewEntry(sdk, serverSecret, now)),
                        VerifyBody(Some(xdr), Some(id)), now2) == Accept(sdk.publicKeyOf(serverSecret))
  {
  }

  /**
    As written, no other key can come out of an issued challenge: whenever
    verification accepts a transaction whose body is one the server issued,
    the key returned is that challenge's server key. A wallet would have to
    forge the server's signature to log in as its own account.
   */
  lemma IssuedChallengeYieldsServerKey(sdk: Sdk, store: Store, body: VerifyBody, now: nat,
                                       serverSecret: SecretKey, id: string, domain: string, issuedAt: nat)
    requires CheckVerify(sdk, store, body, now).Accept?
    requires sdk.fromXdr(body.signedTransaction.value).Some?
    requires sdk.fromXdr(body.signedTransaction.value).value.body
             == IssuedChallenge(sdk, serverSecret, id, domain, issuedAt).body
    ensures CheckVerify(sdk, store, body, now).userPublicKey == sdk.publicKeyOf(serverSecret)
  {
  }

  /** Corrected: the challenge bound to the client's account, signed by the client, logs in as that account. */
  lemma BoundRoundTrip(sdk: Sdk, store: Store, origin: Option<string>, serverSecret: SecretKey,
                       clientSecret: SecretKey, id: string, now: nat, xdr: string, now2: nat)
    requires id != "" && xdr != ""
    requires sdk.fromXdr(xdr) == Some(SignWith(sdk,
               BoundChallenge(sdk, serverSecret, sdk.publicKeyOf(clientSecret), id, ClientDomain(origin), now),
               clientSecret))
    requires AcceptsOwnSignature(sdk, serverSecret,
               BoundChallenge(sdk, serverSecret, sdk.publicKeyOf(clientSecret), id, ClientDomain(origin), now).body)
    requires AcceptsOwnSignature(sdk, clientSecret,
               BoundChallenge(sdk, serverSecret, sdk.publicKeyOf(clientSecret), id, ClientDomain(origin), now).body)
    requires sdk.isAccountId(sdk.publicKeyOf(clientSecret))
    requires now2 <= (now / 1000 + 300) * 1000
    ensures CheckVerifyBound(sdk, Record(store, id, NewEntry(sdk, serverSecret, now)),
                             VerifyBody(Some(xdr), Some(id)), now2) == Accept(sdk.publicKeyOf(clientSecret))
  {
    var account := sdk.publicKeyOf(clientSecret);
    var issued := BoundChallenge(sdk, serverSecret, account, id, ClientDomain(origin), now);
    var tx := SignWith(sdk, issued, clientSecret);
    var s := Record(store, id, NewEntry(sdk, serverSecret, now));
    IssuedWindow(sdk, serverSecret, id, ClientDomain(origin), now);
    assert tx.body == issued.body;
    assert tx.signatures[0] == sdk.sign(serverSecret, sdk.hash(tx.body));
    assert tx.signatures[1] == sdk.sign(clientSecret, sdk.hash(tx.body));
    assert SignedBy(sdk, sdk.publicKeyOf(s[id].serverSecretKey), tx);
    assert SignedBy(sdk, account, tx);
    assert DataOpSource(tx) == Some(account);
    assert GuardsPass(sdk, s, VerifyBody(Some(xdr), Some(id)), now2, DataOpSource);
  }

  /**
    Corrected: the bound challenge sent back with only the server's signature
    is refused whenever that signature does not verify under the client's key.
   */
  lemma BoundRequiresClientSignature(sdk: Sdk, store: Store, origin: Option<string>, serverSecret: SecretKey,
                                     account: PublicKey, id: string, now: nat, xdr: string, now2: nat)
    requires id != "" && xdr != ""
    requires sdk.fromXdr(xdr) == Some(BoundChallenge(sdk, serverSecret, account, id, ClientDomain(origin), now))
    requires AcceptsOwnSignature(sdk, serverSecret,
               BoundChallenge(sdk, serverSecret, account, id, ClientDomain(origin), now).body)
    requires var h := sdk.hash(BoundChallenge(sdk, serverSecret, account, id, ClientDomain(origin), now).body);
             sdk.verify(account, h, sdk.sign(serverSecret, h)) != Verified
    requires sdk.isAccountId(account)
    requires now2 <= (now / 1000 + 300) * 1000
    ensures CheckVerifyBound(sdk, Record(store, id, NewEntry(sdk, serverSecret, now)),
                             VerifyBody(Some(xdr), Some(id)), now2) == Reject(InvalidSignatures)
  {
  }
}
