/**
  The guard sequence of the verify route. Each guard either passes or decides
  the outcome; the first one that fails decides it.
 */
module Verification {
  import opened Options
  import opened StellarSdk
  import opened Challenge

  /** The two fields of the JSON body of a verify request. */
  datatype VerifyBody = VerifyBody(signedTransaction: Option<string>, transactionId: Option<string>)

  datatype ErrorKind =
    | MissingFields              // 400: a field is absent or empty
    | TransactionExpired         // 400: the transaction's upper time bound has passed
    | InvalidOrExpiredChallenge  // 400: no stored challenge, or it has expired
    | InvalidSignatures          // 400: the server or the user signature is missing
    | RouteNotFound              // 404
    | InternalError              // 500: a thrown exception reached the handler's catch

  datatype Outcome = Accept(userPublicKey: PublicKey) | Reject(error: ErrorKind)

  /** A JavaScript field value that is neither absent nor the empty string. */
  predicate Truthy(field: Option<string>)
  {
    field.Some? && field.value != ""
  }

  /** The transaction carries time bounds whose upper bound, in ms, is before `now`. */
  predicate TxExpired(tx: Transaction, now: nat)
  {
    tx.body.timeBounds.Some? && tx.body.timeBounds.value.maxTime * 1000 < now
  }

  /** A stored challenge exists for `id` and `now` is not past its expiry. */
  predicate ChallengeLive(store: Store, id: string, now: nat)
  {
    id in store && now <= store[id].expires
  }

  /** Some signature on `tx` verifies, under `key`, against the transaction hash. */
  ghost predicate SignedBy(sdk: Sdk, key: PublicKey, tx: Transaction)
  {
    exists i :: 0 <= i < |tx.signatures| && sdk.verify(key, sdk.hash(tx.body), tx.signatures[i]) == Verified
  }

  /** `signatures.some(sig => keypair.verify(hash, sig))`, a throw counting as false. */
  function SomeVerifies(sdk: Sdk, key: PublicKey, h: Hash, sigs: seq<Signature>): (r: bool)
    ensures r <==> exists i :: 0 <= i < |sigs| && sdk.verify(key, h, sigs[i]) == Verified
  {
    if sigs == [] then false
    else if sdk.verify(key, h, sigs[0]) == Verified then true
    else
      var rest := SomeVerifies(sdk, key, h, sigs[1..]);
      assert forall i :: 1 <= i < |sigs| ==> sigs[i] == sigs[1..][i - 1];
      rest
  }

  /** The identity the handler as written asserts: the transaction's source account. */
  function SourceAccount(tx: Transaction): Option<PublicKey>
  {
    Some(tx.body.source)
  }

  /** All guards pass, read as one condition; `identity` picks the user key out of the transaction. */
  ghost predicate GuardsPass(sdk: Sdk, store: Store, body: VerifyBody, now: nat,
                             identity: Transaction -> Option<PublicKey>)
  {
    && Truthy(body.signedTransaction)
    && Truthy(body.transactionId)
    && match sdk.fromXdr(body.signedTransaction.value)
       case None => false
       case Some(tx) =>
         var id := body.transactionId.value;
         && !TxExpired(tx, now)
         && ChallengeLive(store, id, now)
         && identity(tx).Some?
         && sdk.isAccountId(identity(tx).value)
         && SignedBy(sdk, sdk.publicKeyOf(store[id].serverSecretKey), tx)
         && SignedBy(sdk, identity(tx).value, tx)
  }

  /**
    The guard sequence, with the user key taken by `identity`: fields present,
    decodable, transaction not expired, challenge stored and live, user key
    accepted by `Keypair.fromPublicKey`, a signature under the stored server
    key and one under the user key.
   */
  function CheckVerifyWith(sdk: Sdk, store: Store, body: VerifyBody, now: nat,
                           identity: Transaction -> Option<PublicKey>): (o: Outcome)
    ensures o.Accept? <==> GuardsPass(sdk, store, body, now, identity)
    ensures o.Accept? ==>
              && body.signedTransaction.Some?
              && sdk.fromXdr(body.signedTransaction.value).Some?
              && identity(sdk.fromXdr(body.signedTransaction.value).value) == Some(o.userPublicKey)
  {
    if !Truthy(body.signedTransaction) || !Truthy(body.transactionId) then Reject(MissingFields)
    else match sdk.fromXdr(body.signedTransaction.value)
      case None => Reject(InternalError)
      case Some(tx) =>
        var id := body.transactionId.value;
        if TxExpired(tx, now) then Reject(TransactionExpired)
        else if !ChallengeLive(store, id, now) then Reject(InvalidOrExpiredChallenge)
        else
          var h := sdk.hash(tx.body);
          var serverOk := SomeVerifies(sdk, sdk.publicKeyOf(store[id].serverSecretKey), h, tx.signatures);
          var user := identity(tx);
          if user.None? || !sdk.isAccountId(user.value) then Reject(InternalError)
          else
            var userOk := SomeVerifies(sdk, user.value, h, tx.signatures);
            if !serverOk || !userOk then Reject(InvalidSignatures) else Accept(user.value)
  }

  /** The verify route's guard sequence as the handler runs it. */
  function CheckVerify(sdk: Sdk, store: Store, body: VerifyBody, now: nat): (o: Outcome)
    ensures o.Accept? <==> GuardsPass(sdk, store, body, now, SourceAccount)
    ensures o.Accept? ==>
              && body.signedTransaction.Some?
              && sdk.fromXdr(body.signedTransaction.value).Some?
              && o.userPublicKey == sdk.fromXdr(body.signedTransaction.value).value.body.source
  {
    CheckVerifyWith(sdk, store, body, now, SourceAccount)
  }

  /** The store after a verify request: the entry is deleted on success only. */
  function AfterVerify(sdk: Sdk, store: Store, body: VerifyBody, now: nat): (s: Store)
    ensures CheckVerify(sdk, store, body, now).Reject? ==> s == store
    ensures CheckVerify(sdk, store, body, now).Accept? ==>
              && body.transactionId.Some?
              && body.transactionId.value in store
              && s == Consume(store, body.transactionId.value)
  {
    if CheckVerify(sdk, store, body, now).Accept? then Consume(store, body.transactionId.value) else store
  }

  // ---------------------------------------------------------------------------
  // Which guard decides
  // ---------------------------------------------------------------------------

  /** A missing or empty field is reported first, whatever else the request holds. */
  lemma MissingFieldRejected(sdk: Sdk, store: Store, body: VerifyBody, now: nat)
    requires !Truthy(body.signedTransaction) || !Truthy(body.transactionId)
    ensures CheckVerify(sdk, store, body, now) == Reject(MissingFields)
    ensures AfterVerify(sdk, store, body, now) == store
  {
  }

  /** A transaction that does not decode makes the handler throw: a 500, store untouched. */
  lemma UndecodableRejected(sdk: Sdk, store: Store, body: VerifyBody, now: nat)
    requires Truthy(body.signedTransaction) && Truthy(body.transactionId)
    requires sdk.fromXdr(body.signedTransaction.value).None?
    ensures CheckVerify(sdk, store, body, now) == Reject(InternalError)
  {
  }

  /**
    The transaction's own time bound is checked before the store: an expired
    transaction is reported as such for every store, and a bound equal to `now`
    (or no bound at all) passes this guard.
   */
  lemma TimeGuard(sdk: Sdk, store: Store, body: VerifyBody, now: nat)
    requires Truthy(body.signedTransaction) && Truthy(body.transactionId)
    requires sdk.fromXdr(body.signedTransaction.value).Some?
    ensures var tx := sdk.fromXdr(body.signedTransaction.value).value;
      CheckVerify(sdk, store, body, now) == Reject(TransactionExpired) <==>
        tx.body.timeBounds.Some? && tx.body.timeBounds.value.maxTime * 1000 < now
    ensures forall other: Store ::
      CheckVerify(sdk, store, body, now) == Reject(TransactionExpired) ==>
        CheckVerify(sdk, other, body, now) == Reject(TransactionExpired)
  {
  }

  /**
    Past the time guard, an unknown id or a `now` strictly after the stored
    expiry is rejected, and the store is left as it was: an expired entry is
    not removed. `now` equal to the expiry passes.
   */
  lemma ChallengeGuard(sdk: Sdk, store: Store, body: VerifyBody, now: nat)
    requires Truthy(body.signedTransaction) && Truthy(body.transactionId)
    requires sdk.fromXdr(body.signedTransaction.value).Some?
    requires !TxExpired(sdk.fromXdr(body.signedTransaction.value).value, now)
    ensures var id := body.transactionId.value;
      CheckVerify(sdk, store, body, now) == Reject(InvalidOrExpiredChallenge) <==>
        id !in store || now > store[id].expires
    ensures CheckVerify(sdk, store, body, now) == Reject(InvalidOrExpiredChallenge) ==>
        AfterVerify(sdk, store, body, now) == store
  {
  }

  /**
    Past the store guard, a source that is not a valid account id throws
    (even when the server signature is also missing); otherwise the request
    succeeds exactly when both signatures are present.
   */
  lemma SignatureGuard(sdk: Sdk, store: Store, body: VerifyBody, now: nat)
    requires Truthy(body.signedTransaction) && Truthy(body.transactionId)
    requires sdk.fromXdr(body.signedTransaction.value).Some?
    requires !TxExpired(sdk.fromXdr(body.signedTransaction.value).value, now)
    requires ChallengeLive(store, body.transactionId.value, now)
    ensures var tx := sdk.fromXdr(body.signedTransaction.value).value;
      var server := sdk.publicKeyOf(store[body.transactionId.value].serverSecretKey);
      var o := CheckVerify(sdk, store, body, now);
      && (!sdk.isAccountId(tx.body.source) ==> o == Reject(InternalError))
      && (sdk.isAccountId(tx.body.source) ==>
            o == if SignedBy(sdk, server, tx) && SignedBy(sdk, tx.body.source, tx)
                 then Accept(tx.body.source) else Reject(InvalidSignatures))
  {
  }

  /** A challenge presented after its stored expiry is never accepted, whatever its signatures. */
  lemma ExpiredChallengeNeverAccepted(sdk: Sdk, store: Store, body: VerifyBody, now: nat)
    requires body.transactionId.Some? && body.transactionId.value in store
    requires now > store[body.transactionId.value].expires
    ensures CheckVerify(sdk, store, body, now).Reject?
    ensures AfterVerify(sdk, store, body, now) == store
  {
  }

  /**
    Success means a signature verified under the public key stored for the
    challenge, provided the store pairs each public key with its secret.
   */
  lemma AcceptedMeansServerSigned(sdk: Sdk, store: Store, body: VerifyBody, now: nat)
    requires ConsistentKeys(sdk, store)
    requires CheckVerify(sdk, store, body, now).Accept?
    ensures body.transactionId.Some? && body.transactionId.value in store
    ensures SignedBy(sdk, store[body.transactionId.value].serverPublicKey,
                     sdk.fromXdr(body.signedTransaction.value).value)
    ensures SignedBy(sdk, CheckVerify(sdk, store, body, now).userPublicKey,
                     sdk.fromXdr(body.signedTransaction.value).value)
  {
  }

  // ---------------------------------------------------------------------------
  // Single use
  // ---------------------------------------------------------------------------

  /**
    After a success the id is gone: any later request for it fails before the
    signature checks (an internal error there can only be a failed decode), and the same request again fails with an invalid
    challenge, or with an expired transaction once its bound has passed.
   */
  lemma ReplayRejected(sdk: Sdk, store: Store, body: VerifyBody, now: nat, body2: VerifyBody, now2: nat)
    requires CheckVerify(sdk, store, body, now).Accept?
    requires body2.transactionId == body.transactionId
    ensures var o2 := CheckVerify(sdk, AfterVerify(sdk, store, body, now), body2, now2);
      && o2.Reject?
      && o2.error in {MissingFields, InternalError, TransactionExpired, InvalidOrExpiredChallenge}
      && (body2 == body ==> o2 == Reject(InvalidOrExpiredChallenge) || o2 == Reject(TransactionExpired))
      && (o2 == Reject(InternalError) ==> sdk.fromXdr(body2.signedTransaction.value).None?)
    ensures body.transactionId.value !in AfterVerify(sdk, store, body, now)
  {
  }

  /** A failed attempt leaves the entry where it was, so the challenge can still be completed. */
  lemma FailureKeepsChallenge(sdk: Sdk, store: Store, body: VerifyBody, now: nat,
                              body2: VerifyBody, now2: nat)
    requires CheckVerify(sdk, store, body, now).Reject?
    ensures AfterVerify(sdk, store, body, now) == store
    ensures CheckVerify(sdk, AfterVerify(sdk, store, body, now), body2, now2) == CheckVerify(sdk, store, body2, now2)
  {
  }
}
