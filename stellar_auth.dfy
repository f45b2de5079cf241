/**
  The stellar-auth edge function: request routing and the process-wide
  challenge store that the issue and verify routes update in place.
 */
module StellarAuth {
  import opened Options
  import opened StellarSdk
  import opened Challenge
  import opened Verification

  const ChallengePath: string := "/stellar-auth/challenge"
  const VerifyPath: string := "/stellar-auth/verify"

  /**
    A request as the handler sees it: HTTP method (`verb`), URL path, origin header and, for
    the verify route, the parsed JSON body (`None` when parsing throws).
   */
  datatype Request = Request(verb: string, path: string, origin: Option<string>, body: Option<VerifyBody>)

  /** What the host supplies per request: the clock (ms), `Keypair.random()`'s seed and `crypto.randomUUID()`. */
  datatype Env = Env(now: nat, freshSecret: SecretKey, freshId: string)

  datatype Route = Preflight | IssueRoute | VerifyRoute | NotFound

  datatype Response =
    | PreflightOk                                                // 200 'ok'
    | ChallengeCreated(transaction: string, transactionId: string)
    | LoginSucceeded(userPublicKey: PublicKey)                   // 200, success: true
    | Failed(error: ErrorKind)

  /** Which branch of the handler a method and path reach; OPTIONS wins on every path. */
  function RouteOf(verb: string, path: string): (r: Route)
    ensures r == Preflight <==> verb == "OPTIONS"
    ensures r == IssueRoute <==> verb == "GET" && path == ChallengePath
    ensures r == VerifyRoute <==> verb == "POST" && path == VerifyPath
  {
    if verb == "OPTIONS" then Preflight
    else if path == ChallengePath && verb == "GET" then IssueRoute
    else if path == VerifyPath && verb == "POST" then VerifyRoute
    else NotFound
  }

  function Status(r: Response): nat
  {
    match r
    case Failed(MissingFields) => 400
    case Failed(TransactionExpired) => 400
    case Failed(InvalidOrExpiredChallenge) => 400
    case Failed(InvalidSignatures) => 400
    case Failed(RouteNotFound) => 404
    case Failed(InternalError) => 500
    case _ => 200
  }

  function OutcomeResponse(o: Outcome): Response
  {
    match o
    case Accept(key) => LoginSucceeded(key)
    case Reject(e) => Failed(e)
  }

  /** The handler together with its `challenges` map. */
  class AuthService {
    const sdk: Sdk
    var challenges: Store

    ghost predicate Valid()
      reads this
    {
      ConsistentKeys(sdk, challenges)
    }

    constructor (sdk: Sdk)
      ensures Valid()
      ensures this.sdk == sdk && challenges == map[]
    {
      this.sdk := sdk;
      challenges := map[];
    }

    /**
      The challenge route: builds and signs a challenge with the fresh server
      key and records exactly one entry, under the fresh id.
     */
    method IssueChallenge(origin: Option<string>, serverSecret: SecretKey, id: string, now: nat)
      returns (transaction: string, transactionId: string)
      requires Valid()
      modifies this
      ensures Valid()
      ensures challenges == Record(old(challenges), id, NewEntry(sdk, serverSecret, now))
      ensures challenges[id] == StoredChallenge(sdk.publicKeyOf(serverSecret), serverSecret, now + 300000)
      ensures forall k :: k != id ==> (k in challenges <==> k in old(challenges))
      ensures forall k :: k != id && k in old(challenges) ==> challenges[k] == old(challenges)[k]
      ensures id !in old(challenges) ==> |challenges| == |old(challenges)| + 1
      ensures transactionId == id
      ensures transaction == sdk.toXdr(IssuedChallenge(sdk, serverSecret, id, ClientDomain(origin), now))
    {
      var clientDomain := ClientDomain(origin);
      var tx := IssuedChallenge(sdk, serverSecret, id, clientDomain, now);
      RecordKeepsConsistent(sdk, challenges, id, serverSecret, now);
      challenges := Record(challenges, id, NewEntry(sdk, serverSecret, now));
      transaction := sdk.toXdr(tx);
      transactionId := id;
    }

    /** The verify route: runs the guards; only a success deletes the entry. */
    method VerifyChallenge(body: VerifyBody, now: nat) returns (r: Response)
      requires Valid()
      modifies this
      ensures Valid()
      ensures r == OutcomeResponse(CheckVerify(sdk, old(challenges), body, now))
      ensures challenges == AfterVerify(sdk, old(challenges), body, now)
      ensures r.LoginSucceeded? ==> body.transactionId.Some? && body.transactionId.value in old(challenges)
                                    && challenges == Consume(old(challenges), body.transactionId.value)
      ensures !r.LoginSucceeded? ==> challenges == old(challenges)
    {
      var outcome := CheckVerify(sdk, challenges, body, now);
      if outcome.Accept? {
        challenges := Consume(challenges, body.transactionId.value);
      }
      r := OutcomeResponse(outcome);
    }

    /** The whole handler: preflight, the two routes, 404 for anything else. */
    method Handle(req: Request, env: Env) returns (r: Response)
      requires Valid()
      modifies this
      ensures Valid()
      ensures RouteOf(req.verb, req.path) == Preflight ==> r == PreflightOk && challenges == old(challenges)
      ensures RouteOf(req.verb, req.path) == NotFound ==>
                r == Failed(RouteNotFound) && Status(r) == 404 && challenges == old(challenges)
      ensures RouteOf(req.verb, req.path) == IssueRoute ==>
                && challenges == Record(old(challenges), env.freshId, NewEntry(sdk, env.freshSecret, env.now))
                && r == ChallengeCreated(
                          sdk.toXdr(IssuedChallenge(sdk, env.freshSecret, env.freshId, ClientDomain(req.origin), env.now)),
                          env.freshId)
      ensures RouteOf(req.verb, req.path) == VerifyRoute && req.body.None? ==>
                r == Failed(InternalError) && challenges == old(challenges)
      ensures RouteOf(req.verb, req.path) == VerifyRoute && req.body.Some? ==>
                && r == OutcomeResponse(CheckVerify(sdk, old(challenges), req.body.value, env.now))
                && challenges == AfterVerify(sdk, old(challenges), req.body.value, env.now)
    {
      match RouteOf(req.verb, req.path)
      case Preflight =>
        r := PreflightOk;
      case IssueRoute =>
        var transaction, transactionId := IssueChallenge(req.origin, env.freshSecret, env.freshId, env.now);
        r := ChallengeCreated(transaction, transactionId);
      case VerifyRoute =>
        if req.body.None? {
          r := Failed(InternalError);
        } else {
          r := VerifyChallenge(req.body.value, env.now);
        }
      case NotFound =>
        r := Failed(RouteNotFound);
    }
  }
}
