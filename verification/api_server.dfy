/**
 * The Verify operation of the auth service and its construction
 * (pkg/service/api_server.go:40-102). The JWT library is abstract: a token
 * string parses either to Malformed or to its signing-method family, its
 * optional kid header, its subject claim and the library's verdict on the
 * signature and the standard claims under a given key. PEM-to-RSA parsing
 * is an abstract partial function.
 */
module AuthServer {
  import opened Wrappers
  import opened KeyCache

  /** The family of the signing method named by the token's alg header. */
  datatype SigningMethod = RSA(alg: string) | NonRSA(alg: string)

  datatype RsaPublicKey = RsaPublicKey(modulus: nat, exponent: nat)

  /** What the JWT library makes of a token string before it calls the key function. */
  datatype JwtParse =
    | Malformed
    | Parsed(signing: SigningMethod, kid: Option<string>, subject: string,
             verifiesWith: RsaPublicKey -> bool)  // signature, expiry and not-before hold under the key

  /** The errors the key function returns, each an Unauthenticated status. */
  datatype KeyFuncError =
    | UnexpectedSigningMethod(alg: string)
    | MissingKeyId
    | KeyUnavailable
    | KeyParseFault(kid: string)

  /** The errors Verify returns. */
  datatype VerifyError =
    | KeyRejected(reason: KeyFuncError)  // the key function's status error, wrapped by the JWT library
    | TokenRejected                      // the JWT library's own error: malformed, bad signature or failed claims

  datatype VerifyResult = VerifyResult(result: Result<string, VerifyError>, cache: CacheState)

  /** The checks the key function makes before it touches the cache: the kid to look up, or the rejection. */
  function CheckHeader(signing: SigningMethod, kid: Option<string>): Result<string, KeyFuncError> {
    if signing.NonRSA? then Err(UnexpectedSigningMethod(signing.alg))
    else if kid.None? then Err(MissingKeyId)
    else Ok(kid.value)
  }

  /** The rest of the key function: the outcome of the lookup, then PEM parsing. */
  function ResolveKey(kid: string, pem: string, lookupErr: Option<CacheError>,
                      parsePem: string -> Option<RsaPublicKey>): Result<RsaPublicKey, KeyFuncError>
  {
    if lookupErr.Some? then Err(KeyUnavailable)
    else match parsePem(pem)
      case None => Err(KeyParseFault(kid))
      case Some(key) => Ok(key)
  }

  /**
   * The whole of Verify on values: the subject of an accepted token or the
   * error, and the cache after the lookup the key function may have made.
   * The lookup is get, whose error is always nil.
   */
  function VerifyOutcome(p: JwtParse, s: CacheState, now: int, f: Fetch, completedAt: int,
                         parsePem: string -> Option<RsaPublicKey>): VerifyResult
  {
    match p
    case Malformed => VerifyResult(Err(TokenRejected), s)
    case Parsed(signing, kid, subject, verifiesWith) =>
      match CheckHeader(signing, kid)
      case Err(e) => VerifyResult(Err(KeyRejected(e)), s)
      case Ok(id) =>
        var g := GetOutcome(s, id, now, f, completedAt);
        match ResolveKey(id, g.pem, None, parsePem)
        case Err(e) => VerifyResult(Err(KeyRejected(e)), g.cache)
        case Ok(key) =>
          if verifiesWith(key) then VerifyResult(Ok(subject), g.cache)
          else VerifyResult(Err(TokenRejected), g.cache)
  }

  // ---------------------------------------------------------------------
  // The order of the checks

  /** A non-RSA signing method is rejected first, whatever the kid and the signature, and the cache is not consulted. */
  lemma NonRsaRejectedFirst(p: JwtParse, s: CacheState, now: int, f: Fetch, completedAt: int,
                            parsePem: string -> Option<RsaPublicKey>)
    requires p.Parsed? && p.signing.NonRSA?
    ensures VerifyOutcome(p, s, now, f, completedAt, parsePem) ==
            VerifyResult(Err(KeyRejected(UnexpectedSigningMethod(p.signing.alg))), s)
  {
  }

  /** An RSA token without a kid is rejected before any lookup, so the cache is not refreshed. */
  lemma MissingKidRejectedBeforeLookup(p: JwtParse, s: CacheState, now: int, f: Fetch, completedAt: int,
                                       parsePem: string -> Option<RsaPublicKey>)
    requires p.Parsed? && p.signing.RSA? && p.kid.None?
    ensures VerifyOutcome(p, s, now, f, completedAt, parsePem) == VerifyResult(Err(KeyRejected(MissingKeyId)), s)
  {
  }

  /** Once the kid is looked up, a PEM string that does not parse is rejected as a key-parse fault. */
  lemma PemParseFaultRejected(p: JwtParse, s: CacheState, now: int, f: Fetch, completedAt: int,
                              parsePem: string -> Option<RsaPublicKey>)
    requires p.Parsed? && p.signing.RSA? && p.kid.Some?
    requires parsePem(GetOutcome(s, p.kid.value, now, f, completedAt).pem).None?
    ensures VerifyOutcome(p, s, now, f, completedAt, parsePem).result == Err(KeyRejected(KeyParseFault(p.kid.value)))
  {
  }

  /**
   * The single success path: a well-formed RSA token with a kid whose cached
   * PEM parses to a key under which the token verifies; the answer is then
   * the token's subject.
   */
  lemma VerifySucceedsIff(p: JwtParse, s: CacheState, now: int, f: Fetch, completedAt: int,
                          parsePem: string -> Option<RsaPublicKey>)
    ensures var r := VerifyOutcome(p, s, now, f, completedAt, parsePem).result;
            r.Ok? <==> p.Parsed? && p.signing.RSA? && p.kid.Some? &&
                       var key := parsePem(GetOutcome(s, p.kid.value, now, f, completedAt).pem);
                       key.Some? && p.verifiesWith(key.value)
    ensures var r := VerifyOutcome(p, s, now, f, completedAt, parsePem).result;
            r.Ok? ==> r.value == p.subject
  {
  }

  /** Because get never fails, Verify never reports an unavailable key. */
  lemma KeyUnavailableNeverReported(p: JwtParse, s: CacheState, now: int, f: Fetch, completedAt: int,
                                    parsePem: string -> Option<RsaPublicKey>)
    ensures VerifyOutcome(p, s, now, f, completedAt, parsePem).result != Err(KeyRejected(KeyUnavailable))
  {
  }

  /**
   * A kid unknown to a fresh cache is rejected without a refresh: the lookup
   * answers the empty string, which no PEM parser accepts.
   */
  lemma UnknownKidInFreshCacheRejected(p: JwtParse, s: CacheState, now: int, f: Fetch, completedAt: int,
                                       parsePem: string -> Option<RsaPublicKey>)
    requires p.Parsed? && p.signing.RSA? && p.kid.Some? && p.kid.value !in s.keys
    requires !IsStale(s, now)
    requires parsePem("").None?
    ensures VerifyOutcome(p, s, now, f, completedAt, parsePem) ==
            VerifyResult(Err(KeyRejected(KeyParseFault(p.kid.value))), s)
  {
    FreshGetKeepsCache(s, p.kid.value, now, f, completedAt);
  }

  /** A token signed with a key held by a fresh cache, with valid claims, verifies to its subject. */
  lemma FreshKeySignedTokenVerifies(p: JwtParse, s: CacheState, now: int, f: Fetch, completedAt: int,
                                    parsePem: string -> Option<RsaPublicKey>, key: RsaPublicKey)
    requires p.Parsed? && p.signing.RSA? && p.kid.Some? && p.kid.value in s.keys
    requires !IsStale(s, now)
    requires parsePem(s.keys[p.kid.value]) == Some(key) && p.verifiesWith(key)
    ensures VerifyOutcome(p, s, now, f, completedAt, parsePem) == VerifyResult(Ok(p.subject), s)
  {
    FreshGetKeepsCache(s, p.kid.value, now, f, completedAt);
  }

  // ---------------------------------------------------------------------
  // The server objects

  /** The Token message: the bearer string and, once verified, the user ID. */
  class Token {
    var token: string
    var userId: Option<string>

    constructor (token: string)
      ensures this.token == token && userId == None
    {
      this.token := token;
      userId := None;
    }
  }

  class APIServer {
    const keys: PubKeys

    constructor (keys: PubKeys)
      ensures this.keys == keys
    {
      this.keys := keys;
    }

    /**
     * Verify: run the key function's checks in order and, on success, set
     * the token's UserId to the subject and return the same token; every
     * failure leaves the token as it was.
     */
    method Verify(token: Token, parse: string -> JwtParse, parsePem: string -> Option<RsaPublicKey>,
                  now: int, f: Fetch, completedAt: int) returns (r: Result<Token, VerifyError>)
      requires keys.Valid()
      modifies token`userId, keys
      ensures keys.Valid()
      ensures var v := VerifyOutcome(parse(token.token), old(keys.State()), now, f, completedAt, parsePem);
              keys.State() == v.cache &&
              (r.Ok? <==> v.result.Ok?) &&
              (r.Ok? ==> r.value == token && token.userId == Some(v.result.value)) &&
              (r.Err? ==> r == Err(v.result.error) && token.userId == old(token.userId))
    {
      var p := parse(token.token);
      if p.Malformed? {
        return Err(TokenRejected);
      }
      var checked := CheckHeader(p.signing, p.kid);
      if checked.Err? {
        return Err(KeyRejected(checked.error));
      }
      var pem, lookupErr := keys.Get(checked.value, now, f, completedAt);
      var key := ResolveKey(checked.value, pem, lookupErr, parsePem);
      if key.Err? {
        return Err(KeyRejected(key.error));
      }
      if !p.verifiesWith(key.value) {
        return Err(TokenRejected);
      }
      token.userId := Some(p.subject);
      return Ok(token);
    }
  }

  /** NewAPIServer: a server exists only if the first refresh of its key cache succeeded. */
  method NewAPIServer(f: Fetch, completedAt: int) returns (s: APIServer?, err: Option<CacheError>)
    ensures err == RefreshOutcome(EmptyCache, f, completedAt).err
    ensures s == null <==> err.Some?
    ensures s != null ==> fresh(s) && fresh(s.keys) && s.keys.Valid() &&
                          s.keys.State() == RefreshOutcome(EmptyCache, f, completedAt).cache
  {
    var keys;
    keys, err := GrabPubKeys(f, completedAt);
    if keys == null {
      return null, err;
    }
    s := new APIServer(keys);
  }
}
