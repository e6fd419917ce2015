/**
 * `SimplifiedCognitoValidator` (auth_server/server.py): validates a bearer token against an
 * Amazon Cognito user pool, first as a JWT signed by a key of the pool's JWKS (cached per
 * region and pool), then, when that fails, through Cognito's GetUser call.
 */
module CognitoValidation {
  import opened Wrappers
  import opened Text
  import opened PyValues

  /** The claims of a decoded token, and one JSON Web Key: JSON objects. */
  type Claims = map<string, Json>
  type Jwk = map<string, Json>

  /** `_jwks_cache`: the JWKS document stored for each `{region}:{user_pool_id}`, as parsed JSON. */
  type JwksCache = map<string, Json>

  /** What verifying the token with one key and the pool's issuer gives. */
  datatype DecodeOutcome =
    | Decoded(claims: Claims)
    | Expired                          // jwt.ExpiredSignatureError
    | InvalidToken(reason: string)     // any other jwt.InvalidTokenError
    | Crashed(reason: string)          // any other exception, key conversion included

  /** How Cognito's GetUser call fails: a `ClientError` with its code and message, or anything else. */
  datatype ClientFailure = ClientError(code: string, message: string) | OtherFailure(reason: string)

  /** GetUser's answer: `Username`, `UserAttributes` as name/value pairs, `UserStatus`. */
  datatype CognitoUser = CognitoUser(username: Option<string>, attributes: seq<(string, string)>, status: Option<string>)

  /** A boto3 `cognito-idp` client; it is bound to the region it was made for. */
  datatype CognitoClient = CognitoClient(region: string)

  /** The libraries and services the validator calls. */
  datatype Services = Services(
    unverifiedHeader: string -> Result<map<string, Json>, string>,   // jwt.get_unverified_header
    fetchJwks: string -> Result<Json, string>,                       // HTTP GET of the JWKS URL, JSON-decoded
    decode: (string, Jwk, string) -> DecodeOutcome,                  // jwt.decode(token, key, issuer)
    getUser: (CognitoClient, string) -> Result<CognitoUser, ClientFailure>,
    repr: Json -> string)                                            // str() of a non-empty list or dict

  /** What `validate_with_boto3` returns. */
  datatype UserInfo = UserInfo(username: Option<string>, attributes: map<string, string>, status: Option<string>)

  /** The fields of `validate_token`'s result that the request handler reads. */
  datatype TokenInfo = TokenInfo(authMethod: string, clientId: Json, username: Json, scopes: seq<string>, groups: Json)

  // ---------------------------------------------------------------------------
  // Names and URLs

  /** An empty region means the validator's default region. */
  function ResolveRegion(region: string, defaultRegion: string): (r: string)
    ensures JStr(r) == Or(JStr(region), JStr(defaultRegion))
    ensures region != "" ==> r == region
    ensures r == "" ==> defaultRegion == ""
  {
    if region == "" then defaultRegion else region
  }

  /** The JWKS cache key `{region}:{user_pool_id}`. */
  function CacheKey(region: string, userPoolId: string): string
  {
    region + ":" + userPoolId
  }

  function Issuer(region: string, userPoolId: string): string
  {
    "https://cognito-idp." + region + ".amazonaws.com/" + userPoolId
  }

  function JwksUrl(region: string, userPoolId: string): string
  {
    Issuer(region, userPoolId) + "/.well-known/jwks.json"
  }

  /** Regions without a colon (all AWS regions) give distinct pools distinct cache entries. */
  lemma CacheKeyInjective(r1: string, p1: string, r2: string, p2: string)
    requires ':' !in r1 && ':' !in r2
    requires CacheKey(r1, p1) == CacheKey(r2, p2)
    ensures r1 == r2 && p1 == p2
  {
    var k := CacheKey(r1, p1);
    IndexOfConcat(r1, ":" + p1, ':');
    IndexOfConcat(r2, ":" + p2, ':');
    assert k == r1 + (":" + p1) && k == r2 + (":" + p2);
    assert r1 == k[..|r1|] && r2 == k[..|r2|];
    assert p1 == k[|r1| + 1..] && p2 == k[|r2| + 1..];
  }

  /** Without that assumption two different (region, pool) pairs share one cache entry. */
  lemma CacheKeyCollision()
    ensures CacheKey("a:b", "c") == CacheKey("a", "b:c")
  {
  }

  // ---------------------------------------------------------------------------
  // The JWKS cache

  /** `str(e)` of the `AttributeError` that `.get` raises on a value that is not a dict. */
  function NoGetError(j: Json): string
  {
    "'" + TypeName(j) + "' object has no attribute 'get'"
  }

  /**
   * The key count `_get_jwks` logs after storing a document, `len(jwks.get('keys', []))`:
   * None when it can be taken, otherwise `str()` of the exception it raises.
   */
  function KeyCountError(doc: Json): (e: Option<string>)
    ensures e.None? <==> doc.JObj? && ("keys" in doc.fields ==> doc.fields["keys"].JStr? || doc.fields["keys"].JArr? || doc.fields["keys"].JObj?)
  {
    match doc
    case JObj(f) =>
      if "keys" in f && (f["keys"].JNull? || f["keys"].JBool? || f["keys"].JNum?) then
        Some("object of type '" + TypeName(f["keys"]) + "' has no len()")
      else None
    case _ => Some(NoGetError(doc))
  }

  /**
   * `_get_jwks` as a function of the cache it finds: the outcome and the cache it leaves. A
   * cached document is returned without a request. A fetched document is stored before its
   * key count is logged, so a document whose count cannot be taken is reported as a failure
   * and yet stays cached; a failed fetch leaves the cache as it was.
   */
  function JwksLookup(cache: JwksCache, region: string, userPoolId: string, fetch: string -> Result<Json, string>)
    : (r: (Result<Json, string>, JwksCache))
    ensures CacheKey(region, userPoolId) in cache ==> r == (Ok(cache[CacheKey(region, userPoolId)]), cache)
    ensures r.0.Ok? ==> CacheKey(region, userPoolId) in r.1 && r.1[CacheKey(region, userPoolId)] == r.0.value
    ensures CacheKey(region, userPoolId) !in cache ==>
              (r.1 == cache <==> fetch(JwksUrl(region, userPoolId)).Err?)
              && (fetch(JwksUrl(region, userPoolId)).Ok? ==>
                    r.1 == cache[CacheKey(region, userPoolId) := fetch(JwksUrl(region, userPoolId)).value])
    ensures r.0.Err? <==> CacheKey(region, userPoolId) !in cache
                          && (fetch(JwksUrl(region, userPoolId)).Err?
                              || KeyCountError(fetch(JwksUrl(region, userPoolId)).value).Some?)
    ensures r.0.Err? ==> r.0.error == "Cannot retrieve JWKS: " + match fetch(JwksUrl(region, userPoolId))
                                                                 case Err(e) => e
                                                                 case Ok(doc) => KeyCountError(doc).GetOr("")
    ensures forall k :: k != CacheKey(region, userPoolId) ==> (k in r.1 <==> k in cache)
    ensures forall k :: k != CacheKey(region, userPoolId) && k in cache ==> r.1[k] == cache[k]
  {
    var key := CacheKey(region, userPoolId);
    if key in cache then (Ok(cache[key]), cache)
    else match fetch(JwksUrl(region, userPoolId))
      case Err(e) => (Err("Cannot retrieve JWKS: " + e), cache)
      case Ok(doc) =>
        var cache' := cache[key := doc];
        match KeyCountError(doc)
        case Some(e) => (Err("Cannot retrieve JWKS: " + e), cache')
        case None => (Ok(doc), cache')
  }

  /** A lookup after one that left the pool's document cached answers from the cache, without a request. */
  lemma JwksLookupIdempotent(cache: JwksCache, region: string, userPoolId: string,
                             fetch: string -> Result<Json, string>, refetch: string -> Result<Json, string>)
    requires JwksLookup(cache, region, userPoolId, fetch).0.Ok?
    ensures var (first, cache') := JwksLookup(cache, region, userPoolId, fetch);
            JwksLookup(cache', region, userPoolId, refetch) == (first, cache')
  {
  }

  /**
   * What `_get_jwks` evidently intends: a document is cached only once it has been read
   * without error, so a failure is retried on the next request.
   */
  function JwksLookupIntended(cache: JwksCache, region: string, userPoolId: string, fetch: string -> Result<Json, string>)
    : (Result<Json, string>, JwksCache)
  {
    var key := CacheKey(region, userPoolId);
    if key in cache then (Ok(cache[key]), cache)
    else match fetch(JwksUrl(region, userPoolId))
      case Err(e) => (Err("Cannot retrieve JWKS: " + e), cache)
      case Ok(doc) =>
        match KeyCountError(doc)
        case Some(e) => (Err("Cannot retrieve JWKS: " + e), cache)
        case None => (Ok(doc), cache[key := doc])
  }

  /**
   * The intended lookup answers every request as the written one does, never caches a
   * failure, and so asks again after one.
   */
  lemma IntendedLookupRetries(cache: JwksCache, region: string, userPoolId: string,
                              fetch: string -> Result<Json, string>, refetch: string -> Result<Json, string>)
    ensures JwksLookupIntended(cache, region, userPoolId, fetch).0 == JwksLookup(cache, region, userPoolId, fetch).0
    ensures var (r, cache') := JwksLookupIntended(cache, region, userPoolId, fetch);
            && (r.Err? ==> cache' == cache && CacheKey(region, userPoolId) !in cache')
            && (r.Ok? ==> cache' == JwksLookup(cache, region, userPoolId, fetch).1)
            && (r.Err? ==> JwksLookupIntended(cache', region, userPoolId, refetch)
                           == JwksLookupIntended(cache, region, userPoolId, refetch))
  {
  }

  // ---------------------------------------------------------------------------
  // JWT validation

  /**
   * The values the key loop visits, `jwks.get('keys', [])` iterated, or `str()` of the
   * exception that raises: the document must be a dict; a string yields its characters and
   * a dict its (string) keys, on which `.get` then fails; a number, bool or null is not
   * iterable.
   */
  function KeyItems(doc: Json): (r: Result<seq<Json>, string>)
    ensures KeyCountError(doc).Some? ==> r.Err?
    ensures doc.JObj? && "keys" !in doc.fields ==> r == Ok([])
    ensures doc.JObj? && "keys" in doc.fields && doc.fields["keys"].JArr? ==> r == Ok(doc.fields["keys"].items)
  {
    match doc
    case JObj(f) =>
      if "keys" !in f then Ok([])
      else
        var keys := f["keys"];
        (match keys
         case JArr(items) => Ok(items)
         case JStr(s) => Ok(seq(|s|, i requires 0 <= i < |s| => JStr([s[i]])))
         case JObj(m) => if m == map[] then Ok([]) else Err(NoGetError(JStr("")))
         case _ => Err("'" + TypeName(keys) + "' object is not iterable"))
    case _ => Err(NoGetError(doc))
  }

  /** A visited value that the loop passes over: a dict whose `kid` is not the header's. */
  predicate Skipped(item: Json, kid: Json)
  {
    item.JObj? && !PyEq(Get(item.fields, "kid"), kid)
  }

  /** The key loop: the value it stops at and what that gives, or None when it runs off the end. */
  function FindKey(items: seq<Json>, kid: Json): Result<Option<Jwk>, string>
  {
    if items == [] then Ok(None)
    else if !items[0].JObj? then Err(NoGetError(items[0]))
    else if PyEq(Get(items[0].fields, "kid"), kid) then Ok(Some(items[0].fields))
    else FindKey(items[1..], kid)
  }

  /**
   * The key found is the first visited dict whose `kid` equals (in Python's sense) the
   * header's; there is none exactly when every value is a dict with another `kid`; the first
   * value that is not a dict, before any match, raises the `.get` failure.
   */
  lemma {:induction false} FindKeySpec(items: seq<Json>, kid: Json)
    ensures FindKey(items, kid) == Ok(None) <==> forall i :: 0 <= i < |items| ==> Skipped(items[i], kid)
    ensures var r := FindKey(items, kid);
            r.Ok? && r.value.Some? ==>
              exists i :: 0 <= i < |items| && items[i] == JObj(r.value.value) && PyEq(Get(r.value.value, "kid"), kid)
                          && forall j :: 0 <= j < i ==> Skipped(items[j], kid)
    ensures var r := FindKey(items, kid);
            r.Err? ==>
              exists i :: 0 <= i < |items| && !items[i].JObj? && r.error == NoGetError(items[i])
                          && forall j :: 0 <= j < i ==> Skipped(items[j], kid)
  {
    if items != [] && items[0].JObj? && !PyEq(Get(items[0].fields, "kid"), kid) {
      var rest := items[1..];
      FindKeySpec(rest, kid);
      assert forall i :: 1 <= i < |items| ==> items[i] == rest[i - 1];
      var r := FindKey(rest, kid);
      if r.Err? {
        var i :| 0 <= i < |rest| && !rest[i].JObj? && r.error == NoGetError(rest[i])
                 && forall j :: 0 <= j < i ==> Skipped(rest[j], kid);
        SkippedShift(items, kid, i);
      } else if r.value.Some? {
        var i :| 0 <= i < |rest| && rest[i] == JObj(r.value.value) && PyEq(Get(r.value.value, "kid"), kid)
                 && forall j :: 0 <= j < i ==> Skipped(rest[j], kid);
        SkippedShift(items, kid, i);
      }
    }
  }

  /** Values skipped after a skipped first value are skipped values of the whole sequence, one place on. */
  lemma SkippedShift(items: seq<Json>, kid: Json, i: int)
    requires items != [] && Skipped(items[0], kid) && 0 <= i < |items| - 1
    requires forall j :: 0 <= j < i ==> Skipped(items[1..][j], kid)
    ensures items[i + 1] == items[1..][i]
    ensures forall j :: 0 <= j < i + 1 ==> Skipped(items[j], kid)
  {
    assert forall j :: 1 <= j < i + 1 ==> items[j] == items[1..][j - 1];
  }

  /** The key loop of `validate_jwt_token`: it stops at the first match, or at the first value it cannot read. */
  method FindSigningKey(items: seq<Json>, kid: Json) returns (r: Result<Option<Jwk>, string>)
    ensures r == FindKey(items, kid)
  {
    var i := 0;
    while i < |items|
      invariant 0 <= i <= |items|
      invariant FindKey(items, kid) == FindKey(items[i..], kid)
    {
      if !items[i].JObj? {
        return Err(NoGetError(items[i]));
      }
      if PyEq(Get(items[i].fields, "kid"), kid) {
        return Ok(Some(items[i].fields));
      }
      assert items[i..][1..] == items[i + 1..];
      i := i + 1;
    }
    return Ok(None);
  }

  /** Only access and ID tokens are accepted. */
  predicate AcceptedTokenUse(claims: Claims)
  {
    Get(claims, "token_use") in [JStr("access"), JStr("id")]
  }

  const TokenFailed: string := "Token validation failed: "

  /** The outcome of decoding the token with the key that matched, as `validate_jwt_token` reports it. */
  function DecodeWithKey(token: string, userPoolId: string, region: string, key: Jwk, s: Services): (r: Result<Claims, string>)
    ensures var d := s.decode(token, key, Issuer(region, userPoolId));
            && (r.Ok? <==> d.Decoded? && AcceptedTokenUse(d.claims))
            && (r.Ok? ==> r.value == d.claims)
            && (d.Decoded? && !AcceptedTokenUse(d.claims) ==> r.Err? && TokenFailed + "Invalid token_use: " <= r.error)
            && (d.Expired? ==> r == Err("Token has expired"))
            && (d.InvalidToken? ==> r == Err("Invalid token: " + d.reason))
            && (d.Crashed? ==> r == Err(TokenFailed + d.reason))
  {
    match s.decode(token, key, Issuer(region, userPoolId))
    case Decoded(claims) =>
      if AcceptedTokenUse(claims) then Ok(claims)
      else Err(TokenFailed + "Invalid token_use: " + Str(Get(claims, "token_use"), s.repr))
    case Expired => Err("Token has expired")
    case InvalidToken(m) => Err("Invalid token: " + m)
    case Crashed(m) => Err(TokenFailed + m)
  }

  /**
   * `validate_jwt_token` (with the region already resolved) as a function of the JWKS cache it
   * starts from: the claims or the error message, and the cache it leaves.
   */
  function JwtOutcome(cache: JwksCache, token: string, userPoolId: string, region: string, s: Services)
    : (Result<Claims, string>, JwksCache)
  {
    match s.unverifiedHeader(token)
    case Err(e) => (Err("Invalid token: " + e), cache)
    case Ok(header) =>
      var kid := Get(header, "kid");
      if !Truthy(kid) then (Err(TokenFailed + "Token missing 'kid' in header"), cache)
      else
        var (jwks, cache') := JwksLookup(cache, region, userPoolId, s.fetchJwks);
        match jwks
        case Err(e) => (Err(TokenFailed + e), cache')
        case Ok(doc) =>
          match KeyItems(doc)
          case Err(e) => (Err(TokenFailed + e), cache')
          case Ok(items) =>
            match FindKey(items, kid)
            case Err(e) => (Err(TokenFailed + e), cache')
            case Ok(None) => (Err(TokenFailed + "No matching key found for kid: " + Str(kid, s.repr)), cache')
            case Ok(Some(key)) => (DecodeWithKey(token, userPoolId, region, key, s), cache')
  }

  /**
   * The JWKS requests `validate_jwt_token` makes: one, to the pool's JWKS URL, exactly when
   * the header parses with a truthy `kid` and the pool's document is not cached; none
   * otherwise. After a request the document is cached exactly when the fetch succeeded.
   */
  function JwtRequests(cache: JwksCache, token: string, userPoolId: string, region: string, s: Services)
    : (r: seq<string>)
    ensures r == [] || r == [JwksUrl(region, userPoolId)]
    ensures r != [] <==> s.unverifiedHeader(token).Ok? && Truthy(Get(s.unverifiedHeader(token).value, "kid"))
                         && CacheKey(region, userPoolId) !in cache
    ensures r != [] ==> (CacheKey(region, userPoolId) in JwtOutcome(cache, token, userPoolId, region, s).1
                         <==> s.fetchJwks(JwksUrl(region, userPoolId)).Ok?)
  {
    match s.unverifiedHeader(token)
    case Err(_) => []
    case Ok(header) =>
      if Truthy(Get(header, "kid")) && CacheKey(region, userPoolId) !in cache then [JwksUrl(region, userPoolId)]
      else []
  }

  /**
   * Once a fetch has been stored, no later validation for the pool makes a request, whatever
   * its token; a failed fetch is asked again by the next validation that gets that far.
   */
  lemma RequestedOnce(cache: JwksCache, token: string, next: string, userPoolId: string, region: string, s: Services)
    requires JwtRequests(cache, token, userPoolId, region, s) != []
    ensures var cache' := JwtOutcome(cache, token, userPoolId, region, s).1;
            && (s.fetchJwks(JwksUrl(region, userPoolId)).Ok? ==> JwtRequests(cache', next, userPoolId, region, s) == [])
            && (s.fetchJwks(JwksUrl(region, userPoolId)).Err? ==>
                  JwtRequests(cache', next, userPoolId, region, s) == JwtRequests(cache, next, userPoolId, region, s))
  {
  }

  /**
   * The conditions under which a token is accepted with given claims: its header parses and
   * has a truthy `kid`; the pool's JWKS is at hand (cached or fetched) and its keys can be
   * read; the first key whose `kid` equals the header's verifies the token against the pool's
   * issuer, giving the claims; their `token_use` is accepted.
   */
  predicate JwtAccepts(cache: JwksCache, token: string, userPoolId: string, region: string, s: Services, claims: Claims)
  {
    && s.unverifiedHeader(token).Ok?
    && var kid := Get(s.unverifiedHeader(token).value, "kid");
       && Truthy(kid)
       && var jwks := JwksLookup(cache, region, userPoolId, s.fetchJwks).0;
          && jwks.Ok?
          && KeyItems(jwks.value).Ok?
          && var key := FindKey(KeyItems(jwks.value).value, kid);
             && key.Ok? && key.value.Some?
             && s.decode(token, key.value.value, Issuer(region, userPoolId)) == Decoded(claims)
             && AcceptedTokenUse(claims)
  }

  /**
   * A token is accepted with given claims exactly when those conditions hold; the expected
   * client id plays no part, and an accepted pool's JWKS is cached afterwards.
   */
  lemma JwtAcceptance(cache: JwksCache, token: string, userPoolId: string, region: string, s: Services, claims: Claims)
    ensures JwtOutcome(cache, token, userPoolId, region, s).0 == Ok(claims)
            <==> JwtAccepts(cache, token, userPoolId, region, s, claims)
    ensures JwtOutcome(cache, token, userPoolId, region, s).0 == Ok(claims)
            ==> CacheKey(region, userPoolId) in JwtOutcome(cache, token, userPoolId, region, s).1
  {
    if JwtAccepts(cache, token, userPoolId, region, s, claims) {
      var kid := Get(s.unverifiedHeader(token).value, "kid");
      var jwks := JwksLookup(cache, region, userPoolId, s.fetchJwks).0;
      var key := FindKey(KeyItems(jwks.value).value, kid);
      assert DecodeWithKey(token, userPoolId, region, key.value.value, s) == Ok(claims);
    }
  }

  /** Every JWT failure happens before the cache changes, or after the pool's JWKS lookup. */
  lemma JwtCacheEffect(cache: JwksCache, token: string, userPoolId: string, region: string, s: Services)
    ensures var cache' := JwtOutcome(cache, token, userPoolId, region, s).1;
            cache' == cache || cache' == JwksLookup(cache, region, userPoolId, s.fetchJwks).1
  {
  }

  /**
   * A fetched document that the key-count log line cannot read stays cached although the
   * fetch is reported as failed: every later JWT validation for the pool answers from that
   * document without a new request, and fails.
   */
  lemma JwksCachePoisoned(cache: JwksCache, token: string, userPoolId: string, region: string, s: Services)
    requires CacheKey(region, userPoolId) !in cache
    requires s.fetchJwks(JwksUrl(region, userPoolId)).Ok?
    requires KeyCountError(s.fetchJwks(JwksUrl(region, userPoolId)).value).Some?
    ensures var (r, cache') := JwksLookup(cache, region, userPoolId, s.fetchJwks);
            && r.Err?
            && cache' == cache[CacheKey(region, userPoolId) := s.fetchJwks(JwksUrl(region, userPoolId)).value]
            && JwtOutcome(cache', token, userPoolId, region, s).0.Err?
            && JwtOutcome(cache', token, userPoolId, region, s).1 == cache'
  {
  }

  // ---------------------------------------------------------------------------
  // boto3 validation

  /** `{attr['Name']: attr['Value'] for attr in UserAttributes}`: a later duplicate name wins. */
  function AttributeMap(attrs: seq<(string, string)>): map<string, string>
  {
    if attrs == [] then map[]
    else AttributeMap(attrs[..|attrs| - 1])[attrs[|attrs| - 1].0 := attrs[|attrs| - 1].1]
  }

  /** Each attribute name maps to the value of its last occurrence, and only listed names appear. */
  lemma {:induction false} AttributeMapLastWins(attrs: seq<(string, string)>)
    ensures forall n :: n in AttributeMap(attrs) <==> exists i :: 0 <= i < |attrs| && attrs[i].0 == n
    ensures forall i :: 0 <= i < |attrs| && (forall j :: i < j < |attrs| ==> attrs[j].0 != attrs[i].0)
              ==> attrs[i].0 in AttributeMap(attrs) && AttributeMap(attrs)[attrs[i].0] == attrs[i].1
  {
    if attrs != [] {
      var init := attrs[..|attrs| - 1];
      AttributeMapLastWins(init);
      assert forall i :: 0 <= i < |init| ==> init[i] == attrs[i];
    }
  }

  /** The loop of `validate_with_boto3` that builds the attribute dictionary. */
  method BuildUserAttributes(attrs: seq<(string, string)>) returns (m: map<string, string>)
    ensures m == AttributeMap(attrs)
  {
    m := map[];
    for i := 0 to |attrs|
      invariant m == AttributeMap(attrs[..i])
    {
      assert attrs[..i + 1][..i] == attrs[..i];
      m := m[attrs[i].0 := attrs[i].1];
    }
    assert attrs[..|attrs|] == attrs;
  }

  /** The message `validate_with_boto3` raises for a failed GetUser call. */
  function Boto3Error(f: ClientFailure): (m: string)
    ensures f.ClientError? && f.code == "NotAuthorizedException" ==> m == "Invalid or expired access token"
    ensures f.ClientError? && f.code == "UserNotFoundException" ==> m == "User not found"
    ensures (f.ClientError? && f.code !in {"NotAuthorizedException", "UserNotFoundException"})
              ==> m == "Token validation failed: " + f.message
    ensures f.OtherFailure? ==> m == "Token validation failed: " + f.reason
  {
    match f
    case ClientError(code, message) =>
      if code == "NotAuthorizedException" then "Invalid or expired access token"
      else if code == "UserNotFoundException" then "User not found"
      else "Token validation failed: " + message
    case OtherFailure(reason) => "Token validation failed: " + reason
  }

  /** `validate_with_boto3` with the region already resolved. */
  function Boto3Outcome(token: string, region: string, s: Services): Result<UserInfo, string>
  {
    match s.getUser(CognitoClient(region), token)
    case Ok(u) => Ok(UserInfo(u.username, AttributeMap(u.attributes), u.status))
    case Err(f) => Err(Boto3Error(f))
  }

  // ---------------------------------------------------------------------------
  // validate_token

  /**
   * The scopes of a JWT: the `scope` claim split on whitespace; a missing or falsy claim
   * gives none, and a truthy claim that is not a string fails as `.split()` does.
   */
  function ScopesOfClaims(claims: Claims): (r: Result<seq<string>, Exception>)
    ensures r.Ok? ==> forall k :: 0 <= k < |r.value| ==> r.value[k] != "" && NoSpace(r.value[k])
    ensures r.Err? <==> "scope" in claims && Truthy(claims["scope"]) && !claims["scope"].JStr?
    ensures "scope" !in claims || !Truthy(claims["scope"]) ==> r == Ok([])
    ensures "scope" in claims && claims["scope"].JStr? ==> r == Ok(WhitespaceSplit(claims["scope"].s))
    ensures r.Err? ==> r.error == AttributeError("'" + TypeName(claims["scope"]) + "' object has no attribute 'split'")
  {
    if "scope" !in claims then Ok([])
    else
      var claim := claims["scope"];
      if !Truthy(claim) then Ok([])
      else match claim
        case JStr(text) => Ok(WhitespaceSplit(text))
        case _ => Err(AttributeError("'" + TypeName(claim) + "' object has no attribute 'split'"))
  }

  /** A `scope` claim written as space-separated scope names reads back as exactly those names. */
  lemma ScopeClaimRoundTrip(claims: Claims, scopes: seq<string>)
    requires forall k :: 0 <= k < |scopes| ==> scopes[k] != "" && NoSpace(scopes[k])
    requires "scope" in claims && claims["scope"] == JStr(Join(scopes, " "))
    ensures ScopesOfClaims(claims) == Ok(scopes)
  {
    WhitespaceSplitJoin(scopes);
    if scopes == [] {
      assert Join(scopes, " ") == "";
    } else {
      assert Join(scopes, " ") != "" by { JoinHeadPrefix(scopes); }
    }
  }

  lemma JoinHeadPrefix(scopes: seq<string>)
    requires scopes != [] && scopes[0] != ""
    ensures scopes[0] <= Join(scopes, " ")
  {
    if |scopes| > 1 {
      JoinCons(scopes[0], " ", scopes[1..]);
      assert [scopes[0]] + scopes[1..] == scopes;
    }
  }

  /** The result of a successful JWT validation. */
  function JwtTokenInfo(claims: Claims, scopes: seq<string>): TokenInfo
  {
    TokenInfo("jwt",
              Or(Get(claims, "client_id"), JStr("")),
              Or(Or(Get(claims, "cognito:username"), Get(claims, "username")), JStr("")),
              scopes,
              if "cognito:groups" in claims then claims["cognito:groups"] else JArr([]))
  }

  /** The result of a successful boto3 validation: no client id, no scopes, no groups. */
  function Boto3TokenInfo(u: UserInfo): TokenInfo
  {
    TokenInfo("boto3", JStr(""),
              if u.username.Some? && u.username.value != "" then JStr(u.username.value) else JStr(""),
              [], JArr([]))
  }

  /**
   * `validate_token` as a function of the JWKS cache it starts from: JWT validation, then
   * boto3 validation when JWT validation raised `ValueError`, then `ValueError` naming both
   * failures.
   */
  function TokenOutcome(cache: JwksCache, defaultRegion: string, token: string, userPoolId: string,
                        region: string, s: Services): Result<TokenInfo, Exception>
  {
    var resolved := ResolveRegion(region, defaultRegion);
    match JwtOutcome(cache, token, userPoolId, resolved, s).0
    case Ok(claims) =>
      (match ScopesOfClaims(claims)
       case Ok(scopes) => Ok(JwtTokenInfo(claims, scopes))
       case Err(e) => Err(e))
    case Err(jwtError) =>
      match Boto3Outcome(token, resolved, s)
      case Ok(u) => Ok(Boto3TokenInfo(u))
      case Err(boto3Error) =>
        Err(ValueError("All validation methods failed. JWT: " + jwtError + ", Boto3: " + boto3Error))
  }

  /**
   * What the request handler relies on: a token is rejected with `ValueError` only when both
   * methods failed; a JWT result carries the claim's scopes and a boto3 result none; the only
   * other failure is a non-string `scope` claim.
   */
  lemma TokenOutcomeCases(cache: JwksCache, defaultRegion: string, token: string, userPoolId: string,
                          region: string, s: Services)
    ensures var r := TokenOutcome(cache, defaultRegion, token, userPoolId, region, s);
            var resolved := ResolveRegion(region, defaultRegion);
            var jwt := JwtOutcome(cache, token, userPoolId, resolved, s).0;
            && (r.Err? && r.error.ValueError? <==> jwt.Err? && Boto3Outcome(token, resolved, s).Err?)
            && (r.Err? && !r.error.ValueError? ==> jwt.Ok? && ScopesOfClaims(jwt.value).Err?)
            && (r.Ok? && r.value.authMethod == "jwt" ==> jwt.Ok? && Ok(r.value.scopes) == ScopesOfClaims(jwt.value))
            && (r.Ok? && r.value.authMethod == "boto3" ==> jwt.Err? && r.value.scopes == [] && r.value.clientId == JStr(""))
            && (r.Ok? ==> r.value.authMethod in {"jwt", "boto3"})
  {
  }

  // ---------------------------------------------------------------------------
  // The validator object

  class CognitoValidator {
    const defaultRegion: string
    /** `_jwks_cache`: JWKS documents by `{region}:{user_pool_id}`. */
    var jwksCache: JwksCache
    /** `_cognito_clients`: one boto3 client per region. */
    var cognitoClients: map<string, CognitoClient>
    /** The JWKS URLs requested so far, in order. */
    ghost var jwksRequests: seq<string>

    /** Every cached client is bound to the region it is cached under. */
    ghost predicate Valid()
      reads this
    {
      forall r :: r in cognitoClients ==> cognitoClients[r] == CognitoClient(r)
    }

    constructor (region: string)
      ensures Valid()
      ensures defaultRegion == region && jwksCache == map[] && cognitoClients == map[] && jwksRequests == []
    {
      defaultRegion := region;
      jwksCache := map[];
      cognitoClients := map[];
      jwksRequests := [];
    }

    /** `_get_cognito_client`: the cached client for the region, created on first use. */
    method GetCognitoClient(region: string) returns (client: CognitoClient)
      requires Valid()
      modifies this`cognitoClients
      ensures Valid()
      ensures client == CognitoClient(region)
      ensures cognitoClients == old(cognitoClients)[region := CognitoClient(region)]
    {
      if region !in cognitoClients {
        cognitoClients := cognitoClients[region := CognitoClient(region)];
      }
      client := cognitoClients[region];
    }

    /**
     * `_get_jwks`: one request per (region, pool) until a document is stored. The document is
     * stored before its key count is taken, so one whose count fails is reported as a failure
     * and stays cached; only a failed request leaves the cache as it was.
     */
    method GetJwks(userPoolId: string, region: string, fetch: string -> Result<Json, string>) returns (r: Result<Json, string>)
      modifies this`jwksCache, this`jwksRequests
      ensures (r, jwksCache) == JwksLookup(old(jwksCache), region, userPoolId, fetch)
      ensures jwksRequests == old(jwksRequests)
                + (if CacheKey(region, userPoolId) in old(jwksCache) then [] else [JwksUrl(region, userPoolId)])
    {
      var key := CacheKey(region, userPoolId);
      if key !in jwksCache {
        var url := JwksUrl(region, userPoolId);
        jwksRequests := jwksRequests + [url];
        match fetch(url) {
          case Err(e) =>
            return Err("Cannot retrieve JWKS: " + e);
          case Ok(jwks) =>
            jwksCache := jwksCache[key := jwks];
            var countError := KeyCountError(jwks);
            if countError.Some? {
              return Err("Cannot retrieve JWKS: " + countError.value);
            }
        }
      }
      r := Ok(jwksCache[key]);
    }

    /** `validate_jwt_token`; the expected client id is read but never decides anything. */
    method ValidateJwtToken(token: string, userPoolId: string, clientId: string, region: string, s: Services)
      returns (r: Result<Claims, string>)
      modifies this`jwksCache, this`jwksRequests
      ensures (r, jwksCache) == JwtOutcome(old(jwksCache), token, userPoolId, ResolveRegion(region, defaultRegion), s)
      ensures jwksRequests
              == old(jwksRequests) + JwtRequests(old(jwksCache), token, userPoolId, ResolveRegion(region, defaultRegion), s)
    {
      var resolved := ResolveRegion(region, defaultRegion);
      var header := s.unverifiedHeader(token);
      if header.Err? {
        return Err("Invalid token: " + header.error);
      }
      var kid := Get(header.value, "kid");
      if !Truthy(kid) {
        return Err(TokenFailed + "Token missing 'kid' in header");
      }
      var jwks := GetJwks(userPoolId, resolved, s.fetchJwks);
      if jwks.Err? {
        return Err(TokenFailed + jwks.error);
      }
      var items := KeyItems(jwks.value);
      if items.Err? {
        return Err(TokenFailed + items.error);
      }
      var signingKey := FindSigningKey(items.value, kid);
      if signingKey.Err? {
        return Err(TokenFailed + signingKey.error);
      }
      if signingKey.value.None? {
        return Err(TokenFailed + "No matching key found for kid: " + Str(kid, s.repr));
      }
      r := DecodeWithKey(token, userPoolId, resolved, signingKey.value.value, s);
    }

    /** `validate_with_boto3`. */
    method ValidateWithBoto3(token: string, region: string, s: Services) returns (r: Result<UserInfo, string>)
      requires Valid()
      modifies this`cognitoClients
      ensures Valid()
      ensures r == Boto3Outcome(token, ResolveRegion(region, defaultRegion), s)
      ensures var resolved := ResolveRegion(region, defaultRegion);
              cognitoClients == old(cognitoClients)[resolved := CognitoClient(resolved)]
    {
      var resolved := ResolveRegion(region, defaultRegion);
      var client := GetCognitoClient(resolved);
      match s.getUser(client, token) {
        case Ok(u) =>
          var attributes := BuildUserAttributes(u.attributes);
          r := Ok(UserInfo(u.username, attributes, u.status));
        case Err(f) =>
          r := Err(Boto3Error(f));
      }
    }

    /** `validate_token`. */
    method ValidateToken(token: string, userPoolId: string, clientId: string, region: string, s: Services)
      returns (r: Result<TokenInfo, Exception>)
      requires Valid()
      modifies this`jwksCache, this`jwksRequests, this`cognitoClients
      ensures Valid()
      ensures r == TokenOutcome(old(jwksCache), defaultRegion, token, userPoolId, region, s)
      ensures jwksCache == JwtOutcome(old(jwksCache), token, userPoolId, ResolveRegion(region, defaultRegion), s).1
      ensures jwksRequests
              == old(jwksRequests) + JwtRequests(old(jwksCache), token, userPoolId, ResolveRegion(region, defaultRegion), s)
      ensures var resolved := ResolveRegion(region, defaultRegion);
              cognitoClients == if JwtOutcome(old(jwksCache), token, userPoolId, resolved, s).0.Ok?
                                then old(cognitoClients)
                                else old(cognitoClients)[resolved := CognitoClient(resolved)]
    {
      var resolved := ResolveRegion(region, defaultRegion);
      var jwt := ValidateJwtToken(token, userPoolId, clientId, resolved, s);
      match jwt {
        case Ok(claims) =>
          var scopes := ScopesOfClaims(claims);
          if scopes.Err? {
            return Err(scopes.error);
          }
          r := Ok(JwtTokenInfo(claims, scopes.value));
        case Err(jwtError) =>
          var boto3 := ValidateWithBoto3(token, resolved, s);
          match boto3 {
            case Ok(u) =>
              r := Ok(Boto3TokenInfo(u));
            case Err(boto3Error) =>
              r := Err(ValueError("All validation methods failed. JWT: " + jwtError + ", Boto3: " + boto3Error));
          }
      }
    }
  }
}
