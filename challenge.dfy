/**
  Challenge issuance: the transaction the server builds and signs for a login
  attempt, and the entry it keeps for it in the challenge store.
 */
module Challenge {
  import opened Options
  import opened StellarSdk

  /** Lifetime of a challenge, in seconds for the transaction's time bounds ... */
  const ValiditySeconds: nat := 300
  /** ... and in milliseconds for the stored entry. */
  const ValidityMillis: nat := 300000
  /** Domain used when the request carries no (or an empty) origin header. */
  const FallbackDomain: string := "example.com"
  const ChallengeMemo: string := "SEP-10 challenge"
  const BaseFee: nat := 100
  /** The source account is built with sequence "-1"; the builder increments it. */
  const ChallengeSequence: int := 0

  /** What the store keeps for an issued challenge. */
  datatype StoredChallenge = StoredChallenge(serverPublicKey: PublicKey, serverSecretKey: SecretKey, expires: nat)

  /** The challenge store, keyed by transaction id. */
  type Store = map<string, StoredChallenge>

  /** The requesting domain: the origin header when it is set and non-empty. */
  function ClientDomain(origin: Option<string>): string
  {
    if origin.Some? && origin.value != "" then origin.value else FallbackDomain
  }

  function DataEntryName(domain: string): string
  {
    domain + " auth"
  }

  /** The unsigned challenge body; `opSource` is the source of the data operation. */
  function ChallengeBodyFor(sdk: Sdk, serverSecret: SecretKey, id: string, domain: string, now: nat,
                            opSource: Option<PublicKey>): TxBody
  {
    TxBody(
      sdk.publicKeyOf(serverSecret),
      ChallengeSequence,
      BaseFee,
      Some(TimeBounds(0, now / 1000 + ValiditySeconds)),
      [ManageData(opSource, DataEntryName(domain), id)],
      Some(ChallengeMemo))
  }

  /** The challenge the handler issues, signed with the fresh server key. */
  function IssuedChallenge(sdk: Sdk, serverSecret: SecretKey, id: string, domain: string, now: nat): Transaction
  {
    SignWith(sdk, Transaction(ChallengeBodyFor(sdk, serverSecret, id, domain, now, None), []), serverSecret)
  }

  /** The entry recorded for a challenge issued at `now` (milliseconds). */
  function NewEntry(sdk: Sdk, serverSecret: SecretKey, now: nat): StoredChallenge
  {
    StoredChallenge(sdk.publicKeyOf(serverSecret), serverSecret, now + ValidityMillis)
  }

  /** `challenges.set(id, entry)`. */
  function Record(store: Store, id: string, entry: StoredChallenge): (r: Store)
    ensures r.Keys == store.Keys + {id}
    ensures id in r && r[id] == entry
    ensures forall k :: k in store && k != id ==> r[k] == store[k]
    ensures id !in store ==> |r| == |store| + 1
  {
    store[id := entry]
  }

  /** `challenges.delete(id)`. */
  function Consume(store: Store, id: string): (r: Store)
    ensures r.Keys == store.Keys - {id}
    ensures forall k :: k in r ==> r[k] == store[k]
    ensures id in store ==> |r| == |store| - 1
  {
    var r := store - {id};
    assert id in store ==> store.Keys == r.Keys + {id};
    r
  }

  /** Every entry holds the public key that belongs to its secret key. */
  predicate ConsistentKeys(sdk: Sdk, store: Store)
  {
    forall id :: id in store ==> store[id].serverPublicKey == sdk.publicKeyOf(store[id].serverSecretKey)
  }

  /** What the issued challenge says: who issued it, for which domain and id, until when. */
  lemma ChallengeContents(sdk: Sdk, origin: Option<string>, serverSecret: SecretKey, id: string, now: nat)
    ensures var tx := IssuedChallenge(sdk, serverSecret, id, ClientDomain(origin), now);
      && tx.body.source == sdk.publicKeyOf(serverSecret)
      && tx.body.timeBounds == Some(TimeBounds(0, now / 1000 + 300))
      && tx.body.operations == [ManageData(None, ClientDomain(origin) + " auth", id)]
      && tx.body.memo == Some("SEP-10 challenge")
      && tx.signatures == [sdk.sign(serverSecret, sdk.hash(tx.body))]
    ensures origin.Some? && origin.value != "" ==> ClientDomain(origin) == origin.value
    ensures origin.None? || origin.value == "" ==> ClientDomain(origin) == "example.com"
  {
  }

  /**
    The transaction's upper time bound, a whole number of seconds, falls in the
    last second before the stored expiry, which is in milliseconds.
   */
  lemma IssuedWindow(sdk: Sdk, serverSecret: SecretKey, id: string, domain: string, now: nat)
    ensures var tb := IssuedChallenge(sdk, serverSecret, id, domain, now).body.timeBounds;
      var expires := NewEntry(sdk, serverSecret, now).expires;
      && tb.Some? && tb.value.minTime == 0
      && tb.value.maxTime * 1000 <= expires < tb.value.maxTime * 1000 + 1000
      && expires == now + 300000
  {
  }

  /** Issuing keeps every entry's public key that of its secret key. */
  lemma RecordKeepsConsistent(sdk: Sdk, store: Store, id: string, serverSecret: SecretKey, now: nat)
    requires ConsistentKeys(sdk, store)
    ensures ConsistentKeys(sdk, Record(store, id, NewEntry(sdk, serverSecret, now)))
  {
  }
}
