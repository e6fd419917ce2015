/**
 * The `/validate` endpoint of the auth server (auth_server/server.py), which the gateway's
 * reverse proxy consults before forwarding a request to an MCP server: header checks, token
 * validation, the scope check for the addressed server and tool, and the response whose
 * headers the proxy copies.
 */
module AuthGateway {
  import opened Wrappers
  import opened Text
  import opened PyValues
  import opened GatewayAccess
  import opened CognitoValidation

  /** The request headers the handler reads; None when a header is absent. */
  datatype RequestHeaders = RequestHeaders(
    authorization: Option<string>,
    userPoolId: Option<string>,      // X-User-Pool-Id
    clientId: Option<string>,        // X-Client-Id
    region: Option<string>,          // X-Region
    originalUrl: Option<string>,     // X-Original-URL
    body: Option<string>)            // X-Body

  /** Library behaviour the handler depends on. */
  datatype Runtime = Runtime(
    pathOf: string -> Option<string>,    // urlparse(url).path; None when urlparse raises
    parseJson: string -> Option<Json>,   // json.loads; None when it raises
    latin1Error: string -> string,       // str() of the UnicodeEncodeError for a non-latin-1 header value
    services: Services)

  const DefaultRegion: string := "us-east-1"
  const BearerPrefix: string := "Bearer "
  const InternalErrorPrefix: string := "Internal validation error: "
  const MissingAuthorization: string := "Missing or invalid Authorization header. Expected: Bearer <token>"
  const MissingUserPool: string := "Missing X-User-Pool-Id header"
  const MissingClient: string := "Missing X-Client-Id header"

  /** A header that is present and non-empty (truthy). */
  predicate Present(h: Option<string>)
  {
    h.Some? && h.value != ""
  }

  // ---------------------------------------------------------------------------
  // Admission: headers and the bearer token

  /** `authorization.split(" ")[1]`. */
  function BearerToken(authorization: string): string
    requires BearerPrefix <= authorization
  {
    BearerSpace(authorization);
    Split(authorization, ' ')[1]
  }

  /**
   * The token is the text after `Bearer ` up to the next space: it is the whole rest of the
   * header exactly when that rest has no space.
   */
  lemma BearerTokenSpec(authorization: string)
    requires BearerPrefix <= authorization
    ensures ' ' !in BearerToken(authorization)
    ensures BearerPrefix + BearerToken(authorization) <= authorization
    ensures BearerToken(authorization) == authorization[7..] <==> ' ' !in authorization[7..]
    ensures 7 + |BearerToken(authorization)| < |authorization| ==> authorization[7 + |BearerToken(authorization)|] == ' '
  {
    var rest := authorization[7..];
    var n := IndexOf(rest, ' ');
    BearerTokenOfRest(authorization);
    assert BearerPrefix == authorization[..7];
    assert authorization[..7] + rest[..n] == authorization[..7 + n];
    if n < |rest| {
      assert authorization[7 + n] == rest[n];
    }
  }

  /** The token is the rest of the header after `Bearer `, up to its first space. */
  lemma BearerTokenOfRest(authorization: string)
    requires BearerPrefix <= authorization
    ensures BearerToken(authorization) == authorization[7..][..IndexOf(authorization[7..], ' ')]
  {
    var rest := authorization[7..];
    BearerSpace(authorization);
    assert authorization == authorization[..6] + [' '] + rest;
    SplitHead(rest, ' ');
    assert Split(authorization, ' ') == [authorization[..6]] + Split(rest, ' ');
  }

  /** The first space of a Bearer header is the one after `Bearer`. */
  lemma BearerSpace(authorization: string)
    requires BearerPrefix <= authorization
    ensures IndexOf(authorization, ' ') == 6
  {
    assert authorization == "Bearer" + authorization[6..];
    IndexOfConcat("Bearer", authorization[6..], ' ');
  }

  /** A doubled space after `Bearer` yields an empty token, which is passed on to validation. */
  lemma DoubleSpaceGivesEmptyToken(authorization: string)
    requires BearerPrefix + " " <= authorization
    ensures BearerToken(authorization) == ""
  {
    BearerTokenSpec(authorization);
    assert authorization[7] == ' ';
  }

  /** What the handler has established once the header checks pass. */
  datatype Admitted = Admitted(
    token: string, userPoolId: string, clientId: string, region: string,
    originalUrl: Option<string>, serverName: Option<string>, payload: Option<Json>)

  /** The server name taken from X-Original-URL before any check; None when absent or unparsable. */
  function ServerNameOf(originalUrl: Option<string>, rt: Runtime): (r: Option<string>)
    ensures !Present(originalUrl) ==> r.None?
    ensures Present(originalUrl) && rt.pathOf(originalUrl.value).None? ==> r.None?
    ensures Present(originalUrl) && rt.pathOf(originalUrl.value).Some?
            ==> r == ServerNameFromPath(rt.pathOf(originalUrl.value).value)
  {
    if Present(originalUrl) then ParseServerAndToolFromUrl(originalUrl.value, rt.pathOf).0 else None
  }

  /** The JSON-RPC payload from X-Body; None when absent, empty or not JSON. */
  function PayloadOf(body: Option<string>, rt: Runtime): (r: Option<Json>)
    ensures r.Some? ==> Present(body) && rt.parseJson(body.value) == r
    ensures Present(body) ==> r == rt.parseJson(body.value)
  {
    if Present(body) then rt.parseJson(body.value) else None
  }

  /**
   * Header extraction and the three header checks, in order: Authorization with the Bearer
   * scheme (401 with a Bearer challenge), then X-User-Pool-Id and X-Client-Id (400).
   */
  function Admit(h: RequestHeaders, rt: Runtime): (r: Result<Admitted, Exception>)
    ensures r.Err? <==> !(Present(h.authorization) && BearerPrefix <= h.authorization.value)
                        || !Present(h.userPoolId) || !Present(h.clientId)
    ensures !(Present(h.authorization) && BearerPrefix <= h.authorization.value)
            ==> r == Err(HttpException(401, MissingAuthorization, true))
    ensures (Present(h.authorization) && BearerPrefix <= h.authorization.value && !Present(h.userPoolId))
            ==> r == Err(HttpException(400, MissingUserPool, false))
    ensures (Present(h.authorization) && BearerPrefix <= h.authorization.value && Present(h.userPoolId)
             && !Present(h.clientId))
            ==> r == Err(HttpException(400, MissingClient, false))
    ensures r.Ok? ==> r.value.userPoolId == h.userPoolId.value && r.value.clientId == h.clientId.value
                      && BearerPrefix + r.value.token <= h.authorization.value
                      && r.value.token == BearerToken(h.authorization.value)
    ensures r.Ok? ==> r.value.originalUrl == h.originalUrl
                      && r.value.serverName == ServerNameOf(h.originalUrl, rt)
                      && r.value.payload == PayloadOf(h.body, rt)
    ensures r.Ok? ==> r.value.region == if h.region.Some? then h.region.value else DefaultRegion
  {
    if !Present(h.authorization) || !(BearerPrefix <= h.authorization.value) then
      Err(HttpException(401, MissingAuthorization, true))
    else if !Present(h.userPoolId) then
      Err(HttpException(400, MissingUserPool, false))
    else if !Present(h.clientId) then
      Err(HttpException(400, MissingClient, false))
    else
      BearerTokenSpec(h.authorization.value);
      Ok(Admitted(BearerToken(h.authorization.value), h.userPoolId.value, h.clientId.value,
                  h.region.GetOr(DefaultRegion), h.originalUrl,
                  ServerNameOf(h.originalUrl, rt), PayloadOf(h.body, rt)))
  }

  // ---------------------------------------------------------------------------
  // The tool name

  /**
   * The tool a JSON-RPC object names: `method`; else `tool` or `name`; else, when `params`
   * is an object, its `name`, `tool` or `method`.
   */
  function ToolNameFromObject(f: map<string, Json>): Json
  {
    var byMethod := Get(f, "method");
    var direct := if Truthy(byMethod) then byMethod else Or(Get(f, "tool"), Get(f, "name"));
    if !Truthy(direct) && "params" in f && f["params"].JObj? then
      var params := f["params"].fields;
      Or(Or(Get(params, "name"), Get(params, "tool")), Get(params, "method"))
    else direct
  }

  /** The places a tool name is looked for, in priority order. */
  function ToolNameCandidates(f: map<string, Json>): seq<Json>
  {
    [Get(f, "method"), Get(f, "tool"), Get(f, "name")]
    + if "params" in f && f["params"].JObj? then
        var params := f["params"].fields;
        [Get(params, "name"), Get(params, "tool"), Get(params, "method")]
      else []
  }

  /** The first truthy value of a sequence. */
  function FirstTruthy(cs: seq<Json>): (r: Option<Json>)
    ensures r.None? <==> forall i :: 0 <= i < |cs| ==> !Truthy(cs[i])
    ensures r.Some? ==> exists i :: 0 <= i < |cs| && cs[i] == r.value && Truthy(cs[i])
                                   && forall j :: 0 <= j < i ==> !Truthy(cs[j])
  {
    if cs == [] then None
    else if Truthy(cs[0]) then Some(cs[0])
    else
      var rest := FirstTruthy(cs[1..]);
      assert forall i :: 1 <= i < |cs| ==> cs[i] == cs[1..][i - 1];
      rest
  }

  /** The extracted tool name is the first truthy candidate, and it is falsy when there is none. */
  lemma ToolNamePriority(f: map<string, Json>)
    ensures FirstTruthy(ToolNameCandidates(f)).Some? <==> Truthy(ToolNameFromObject(f))
    ensures Truthy(ToolNameFromObject(f)) ==> FirstTruthy(ToolNameCandidates(f)) == Some(ToolNameFromObject(f))
  {
    var cs := ToolNameCandidates(f);
    assert cs[0] == Get(f, "method") && cs[1] == Get(f, "tool") && cs[2] == Get(f, "name");
    if "params" in f && f["params"].JObj? {
      var params := f["params"].fields;
      assert cs[3] == Get(params, "name") && cs[4] == Get(params, "tool") && cs[5] == Get(params, "method");
      assert |cs| == 6;
    } else {
      assert |cs| == 3;
    }
  }

  /**
   * The tool name of a request: looked for only when the request has an original URL, a
   * truthy payload and a server name, and then only in a JSON object payload.
   */
  function ExtractToolName(a: Admitted, rt: Runtime): (tool: Json)
    ensures Truthy(tool) ==> Present(a.originalUrl) && a.payload.Some? && a.payload.value.JObj?
                             && a.serverName.Some? && a.serverName.value != ""
                             && tool == ToolNameFromObject(a.payload.value.fields)
    ensures Present(a.originalUrl) && a.payload.Some? && Truthy(a.payload.value) && a.payload.value.JObj?
            && a.serverName.Some? && a.serverName.value != ""
            ==> tool == ToolNameFromObject(a.payload.value.fields)
    ensures !(Present(a.originalUrl) && a.payload.Some? && Truthy(a.payload.value) && a.payload.value.JObj?
              && a.serverName.Some? && a.serverName.value != "")
            ==> tool == JNull
  {
    if Present(a.originalUrl) && a.payload.Some? && Truthy(a.payload.value) then
      var urlTool := ParseServerAndToolFromUrl(a.originalUrl.value, rt.pathOf).1;
      var tool := match urlTool case None => JNull case Some(t) => JStr(t);
      if a.serverName.Some? && a.serverName.value != "" && !Truthy(tool) then
        match a.payload.value
        case JObj(f) => ToolNameFromObject(f)
        case _ => tool
      else tool
    else JNull
  }

  // ---------------------------------------------------------------------------
  // Authorization and the response

  /** The scope check runs only when payload, server name, tool name and scopes are all non-empty. */
  predicate ScopeCheckApplies(payload: Option<Json>, serverName: Option<string>, tool: Json, userScopes: seq<string>)
  {
    payload.Some? && Truthy(payload.value) && serverName.Some? && serverName.value != ""
    && Truthy(tool) && userScopes != []
  }

  /** The JSON body of a granted request (`valid` is always true). */
  datatype ResponseBody = ResponseBody(
    username: Json, clientId: Json, scopes: seq<string>, authMethod: string, groups: Json,
    serverName: Option<string>, toolName: Json)

  /** What the endpoint answers: 200 with a body and headers, or an error status with its detail. */
  datatype Response =
    | Granted(body: ResponseBody, headers: seq<(string, string)>)
    | Refused(status: int, detail: string, bearerChallenge: bool)

  function Status(r: Response): int
  {
    if r.Granted? then 200 else r.status
  }

  predicate Latin1(s: string)
  {
    forall k :: 0 <= k < |s| ==> s[k] as int < 256
  }

  /** Setting a response header: the value must be a string that latin-1 can encode. */
  function EncodeHeader(value: Json, rt: Runtime): (r: Result<string, Exception>)
    ensures r.Ok? <==> value.JStr? && Latin1(value.s)
    ensures r.Ok? ==> r.value == value.s
    ensures r.Err? && value.JStr? ==> r.error == ValueError(rt.latin1Error(value.s))
    ensures !value.JStr? ==> r.error.AttributeError?
  {
    match value
    case JStr(s) => if Latin1(s) then Ok(s) else Err(ValueError(rt.latin1Error(s)))
    case _ => Err(AttributeError("'" + TypeName(value) + "' object has no attribute 'encode'"))
  }

  /** Setting the headers in order; the first value that cannot be set raises. */
  function EncodeHeaders(hs: seq<(string, Json)>, rt: Runtime): (r: Result<seq<(string, string)>, Exception>)
    ensures r.Ok? <==> forall i :: 0 <= i < |hs| ==> EncodeHeader(hs[i].1, rt).Ok?
    ensures r.Ok? ==> |r.value| == |hs| && forall i :: 0 <= i < |hs| ==> r.value[i].0 == hs[i].0 && hs[i].1 == JStr(r.value[i].1)
    ensures r.Err? ==> exists i :: 0 <= i < |hs| && EncodeHeader(hs[i].1, rt) == Err(r.error)
                                   && forall j :: 0 <= j < i ==> EncodeHeader(hs[j].1, rt).Ok?
  {
    if hs == [] then Ok([])
    else
      var rest := EncodeHeaders(hs[1..], rt);
      assert forall i :: 1 <= i < |hs| ==> hs[i] == hs[1..][i - 1];
      match EncodeHeader(hs[0].1, rt)
      case Err(e) => Err(e)
      case Ok(v) =>
        match rest
        case Err(e) =>
          var i :| 0 <= i < |hs[1..]| && EncodeHeader(hs[1..][i].1, rt) == Err(e)
                   && forall j :: 0 <= j < i ==> EncodeHeader(hs[1..][j].1, rt).Ok?;
          assert EncodeHeader(hs[i + 1].1, rt) == Err(e);
          Err(e)
        case Ok(tail) => Ok([(hs[0].0, v)] + tail)
  }

  /** The headers the proxy copies, in the order they are set. */
  function ResponseHeaders(info: TokenInfo, serverName: Option<string>, tool: Json): seq<(string, Json)>
  {
    var username := Or(info.username, JStr(""));
    [("X-User", username),
     ("X-Username", username),
     ("X-Client-Id", Or(info.clientId, JStr(""))),
     ("X-Scopes", JStr(Join(info.scopes, " "))),
     ("X-Auth-Method", JStr(info.authMethod)),
     ("X-Server-Name", JStr(serverName.GetOr(""))),
     ("X-Tool-Name", Or(tool, JStr("")))]
  }

  /** The 200 response for a validated request. */
  function GrantResponse(a: Admitted, info: TokenInfo, tool: Json, rt: Runtime): (r: Result<Response, Exception>)
    ensures r.Ok? ==> r.value.Granted?
    ensures r.Err? ==> !r.error.HttpException?
    ensures r.Ok? <==> forall i :: 0 <= i < 7 ==> EncodeHeader(ResponseHeaders(info, a.serverName, tool)[i].1, rt).Ok?
    ensures r.Ok? ==> var body := r.value.body;
                      && body.username == Or(info.username, JStr("")) && body.clientId == Or(info.clientId, JStr(""))
                      && body.scopes == info.scopes && body.authMethod == info.authMethod && body.groups == info.groups
                      && body.serverName == a.serverName && body.toolName == tool
  {
    var body := ResponseBody(Or(info.username, JStr("")), Or(info.clientId, JStr("")), info.scopes,
                             info.authMethod, info.groups, a.serverName, tool);
    match EncodeHeaders(ResponseHeaders(info, a.serverName, tool), rt)
    case Err(e) => Err(e)
    case Ok(hs) => Ok(Granted(body, hs))
  }

  /** After the token is validated: the scope check, then the response. */
  function Authorize(a: Admitted, info: TokenInfo, config: ScopesConfig, rt: Runtime): Result<Response, Exception>
  {
    var tool := ExtractToolName(a, rt);
    if ScopeCheckApplies(a.payload, a.serverName, tool, info.scopes)
       && !AccessAllowed(config, a.serverName.value, tool, info.scopes) then
      Err(HttpException(403, "Access denied to " + a.serverName.value + "." + Str(tool, rt.services.repr), false))
    else
      GrantResponse(a, info, tool, rt)
  }

  /** The request is refused with 403 exactly when the scope check applies and no scope allows the tool. */
  lemma AuthorizeDeniesIff(a: Admitted, info: TokenInfo, config: ScopesConfig, rt: Runtime)
    ensures var tool := ExtractToolName(a, rt);
            (Authorize(a, info, config, rt).Err? && Authorize(a, info, config, rt).error.HttpException?)
            <==> ScopeCheckApplies(a.payload, a.serverName, tool, info.scopes)
                 && !AccessAllowed(config, a.serverName.value, tool, info.scopes)
  {
  }

  /** A token validated through boto3 carries no scopes, so its requests skip the scope check. */
  lemma Boto3BypassesScopeCheck(a: Admitted, info: TokenInfo, config: ScopesConfig, rt: Runtime)
    requires info.scopes == []
    ensures Authorize(a, info, config, rt) == GrantResponse(a, info, ExtractToolName(a, rt), rt)
  {
  }

  /**
   * The handler's two `except` clauses: `ValueError` (and its subclass `UnicodeEncodeError`)
   * becomes 401 with a Bearer challenge; every other exception, the handler's own
   * `HTTPException`s included, becomes 500 with `str(e)` in the detail.
   */
  function Finalize(outcome: Result<Response, Exception>): Response
  {
    match outcome
    case Ok(r) => r
    case Err(ValueError(m)) => Refused(401, m, true)
    case Err(HttpException(status, detail, _)) =>
      Refused(500, InternalErrorPrefix + IntToDecimal(status) + ": " + detail, false)
    case Err(AttributeError(m)) => Refused(500, InternalErrorPrefix + m, false)
  }

  /** What the handler evidently intends: its own `HTTPException`s reach the client unchanged. */
  function FinalizeIntended(outcome: Result<Response, Exception>): Response
  {
    match outcome
    case Ok(r) => r
    case Err(ValueError(m)) => Refused(401, m, true)
    case Err(HttpException(status, detail, challenge)) => Refused(status, detail, challenge)
    case Err(AttributeError(m)) => Refused(500, InternalErrorPrefix + m, false)
  }

  /** As written, every `HTTPException` the handler raises leaves it as a 500. */
  lemma HttpExceptionsBecome500(status: int, detail: string, challenge: bool)
    ensures Finalize(Err(HttpException(status, detail, challenge)))
            == Refused(500, InternalErrorPrefix + IntToDecimal(status) + ": " + detail, false)
    ensures status != 500 ==> Status(Finalize(Err(HttpException(status, detail, challenge)))) != status
  {
  }

  /** The intended handling keeps the status, and agrees with the written one on everything else. */
  lemma IntendedKeepsStatus(outcome: Result<Response, Exception>)
    ensures outcome.Err? && outcome.error.HttpException? ==>
              Status(FinalizeIntended(outcome)) == outcome.error.status
              && FinalizeIntended(outcome).detail == outcome.error.detail
    ensures !(outcome.Err? && outcome.error.HttpException?) ==> FinalizeIntended(outcome) == Finalize(outcome)
  {
  }

  // ---------------------------------------------------------------------------
  // The whole request

  /** The endpoint's answer, as a function of the JWKS cache the validator starts with. */
  function RequestOutcome(cache: JwksCache, defaultRegion: string, h: RequestHeaders,
                          config: ScopesConfig, rt: Runtime): Response
  {
    match Admit(h, rt)
    case Err(e) => Finalize(Err(e))
    case Ok(a) =>
      match TokenOutcome(cache, defaultRegion, a.token, a.userPoolId, a.region, rt.services)
      case Err(e) => Finalize(Err(e))
      case Ok(info) => Finalize(Authorize(a, info, config, rt))
  }

  /** The same, with the handler's `HTTPException`s reaching the client as intended. */
  function RequestOutcomeIntended(cache: JwksCache, defaultRegion: string, h: RequestHeaders,
                                  config: ScopesConfig, rt: Runtime): Response
  {
    match Admit(h, rt)
    case Err(e) => FinalizeIntended(Err(e))
    case Ok(a) =>
      match TokenOutcome(cache, defaultRegion, a.token, a.userPoolId, a.region, rt.services)
      case Err(e) => FinalizeIntended(Err(e))
      case Ok(info) => FinalizeIntended(Authorize(a, info, config, rt))
  }

  /**
   * A request is granted only with a Bearer token that one of the validation methods accepted
   * and, when the scope check applies, a scope that allows the tool; the X-Scopes header lists
   * the token's scopes.
   */
  lemma GrantedOnlyWhenAuthorized(cache: JwksCache, defaultRegion: string, h: RequestHeaders,
                                  config: ScopesConfig, rt: Runtime)
    requires RequestOutcome(cache, defaultRegion, h, config, rt).Granted?
    ensures Admit(h, rt).Ok?
    ensures var a := Admit(h, rt).value;
            var token := TokenOutcome(cache, defaultRegion, a.token, a.userPoolId, a.region, rt.services);
            && token.Ok?
            && var tool := ExtractToolName(a, rt);
               && (ScopeCheckApplies(a.payload, a.serverName, tool, token.value.scopes)
                   ==> AccessAllowed(config, a.serverName.value, tool, token.value.scopes))
               && var hs := RequestOutcome(cache, defaultRegion, h, config, rt).headers;
                  |hs| == 7 && hs[3] == ("X-Scopes", Join(token.value.scopes, " "))
  {
    GrantedComesFromAuthorize(cache, defaultRegion, h, config, rt);
    var a := Admit(h, rt).value;
    var info := TokenOutcome(cache, defaultRegion, a.token, a.userPoolId, a.region, rt.services).value;
    var tool := ExtractToolName(a, rt);
    AuthorizeDeniesIff(a, info, config, rt);
    assert Authorize(a, info, config, rt) == GrantResponse(a, info, tool, rt);
    GrantedHeaders(a, info, tool, rt);
  }

  /** Only a request whose headers pass and whose token is accepted reaches `Authorize`, and a 200 comes from there. */
  lemma GrantedComesFromAuthorize(cache: JwksCache, defaultRegion: string, h: RequestHeaders,
                                  config: ScopesConfig, rt: Runtime)
    requires RequestOutcome(cache, defaultRegion, h, config, rt).Granted?
    ensures Admit(h, rt).Ok?
    ensures var a := Admit(h, rt).value;
            var token := TokenOutcome(cache, defaultRegion, a.token, a.userPoolId, a.region, rt.services);
            && token.Ok?
            && Authorize(a, token.value, config, rt) == Ok(RequestOutcome(cache, defaultRegion, h, config, rt))
  {
    match Admit(h, rt)
    case Err(e) =>
      FinalizeRefuses(e);
    case Ok(a) =>
      match TokenOutcome(cache, defaultRegion, a.token, a.userPoolId, a.region, rt.services)
      case Err(e) =>
        FinalizeRefuses(e);
      case Ok(info) =>
        var outcome := Authorize(a, info, config, rt);
        if outcome.Err? {
          FinalizeRefuses(outcome.error);
        }
  }

  /** Every exception becomes a refusal. */
  lemma FinalizeRefuses(e: Exception)
    ensures Finalize(Err(e)).Refused?
  {
  }

  /**
   * A 200 response carries the seven proxy headers, in order: the user (twice), the client
   * id, the space-joined scopes, the validation method, the server name and the tool name;
   * an absent or falsy value is sent as the empty string.
   */
  lemma GrantedHeaders(a: Admitted, info: TokenInfo, tool: Json, rt: Runtime)
    requires GrantResponse(a, info, tool, rt).Ok?
    ensures var username := Or(info.username, JStr(""));
            var clientId := Or(info.clientId, JStr(""));
            var toolName := Or(tool, JStr(""));
            && username.JStr? && clientId.JStr? && toolName.JStr?
            && GrantResponse(a, info, tool, rt).value.headers
               == [("X-User", username.s),
                   ("X-Username", username.s),
                   ("X-Client-Id", clientId.s),
                   ("X-Scopes", Join(info.scopes, " ")),
                   ("X-Auth-Method", info.authMethod),
                   ("X-Server-Name", a.serverName.GetOr("")),
                   ("X-Tool-Name", toolName.s)]
  {
    var headers := ResponseHeaders(info, a.serverName, tool);
    var hs := GrantResponse(a, info, tool, rt).value.headers;
    assert hs == EncodeHeaders(headers, rt).value;
    assert |hs| == 7;
    assert forall i :: 0 <= i < 7 ==> hs[i].0 == headers[i].0 && headers[i].1 == JStr(hs[i].1);
    assert hs[0] == (headers[0].0, headers[0].1.s);
    assert hs[1] == (headers[1].0, headers[1].1.s);
    assert hs[2] == (headers[2].0, headers[2].1.s);
    assert hs[3] == (headers[3].0, headers[3].1.s);
    assert hs[4] == (headers[4].0, headers[4].1.s);
    assert hs[5] == (headers[5].0, headers[5].1.s);
    assert hs[6] == (headers[6].0, headers[6].1.s);
  }

  /**
   * Conversely, a request is granted whenever its headers pass, one of the validation
   * methods accepts its token, the scope check does not apply or a scope allows the tool,
   * and the header values can be set.
   */
  lemma GrantedWhenAuthorized(cache: JwksCache, defaultRegion: string, h: RequestHeaders,
                              config: ScopesConfig, rt: Runtime)
    requires Admit(h, rt).Ok?
    requires var a := Admit(h, rt).value;
             var token := TokenOutcome(cache, defaultRegion, a.token, a.userPoolId, a.region, rt.services);
             && token.Ok?
             && var tool := ExtractToolName(a, rt);
                && (ScopeCheckApplies(a.payload, a.serverName, tool, token.value.scopes)
                    ==> AccessAllowed(config, a.serverName.value, tool, token.value.scopes))
                && EncodeHeaders(ResponseHeaders(token.value, a.serverName, tool), rt).Ok?
    ensures RequestOutcome(cache, defaultRegion, h, config, rt).Granted?
  {
  }

  /** As written, a request with bad headers is answered 500, naming the status it was meant to get. */
  lemma BadHeadersAnswer500(cache: JwksCache, defaultRegion: string, h: RequestHeaders,
                            config: ScopesConfig, rt: Runtime)
    requires !(Present(h.authorization) && BearerPrefix <= h.authorization.value)
    ensures RequestOutcome(cache, defaultRegion, h, config, rt)
            == Refused(500, InternalErrorPrefix + "401: " + MissingAuthorization, false)
    ensures RequestOutcomeIntended(cache, defaultRegion, h, config, rt)
            == Refused(401, MissingAuthorization, true)
  {
    assert IntToDecimal(401) == "401" by {
      assert NatToDecimal(401) == NatToDecimal(40) + [DigitChar(1)];
      assert NatToDecimal(40) == NatToDecimal(4) + [DigitChar(0)];
    }
  }

  /** A token both validation methods reject is answered 401 with their message and a Bearer challenge. */
  lemma RejectedTokenAnswers401(cache: JwksCache, defaultRegion: string, h: RequestHeaders,
                                config: ScopesConfig, rt: Runtime)
    requires Admit(h, rt).Ok?
    requires var a := Admit(h, rt).value;
             TokenOutcome(cache, defaultRegion, a.token, a.userPoolId, a.region, rt.services).Err?
    ensures var a := Admit(h, rt).value;
            var e := TokenOutcome(cache, defaultRegion, a.token, a.userPoolId, a.region, rt.services).error;
            e.ValueError? ==> RequestOutcome(cache, defaultRegion, h, config, rt) == Refused(401, e.message, true)
  {
  }

  /** As written, a tool the caller's scopes do not allow is answered 500 rather than 403. */
  lemma DeniedToolAnswers500(cache: JwksCache, defaultRegion: string, h: RequestHeaders,
                             config: ScopesConfig, rt: Runtime)
    requires Admit(h, rt).Ok?
    requires var a := Admit(h, rt).value;
             var token := TokenOutcome(cache, defaultRegion, a.token, a.userPoolId, a.region, rt.services);
             && token.Ok?
             && var tool := ExtractToolName(a, rt);
                ScopeCheckApplies(a.payload, a.serverName, tool, token.value.scopes)
                && !AccessAllowed(config, a.serverName.value, tool, token.value.scopes)
    ensures Status(RequestOutcome(cache, defaultRegion, h, config, rt)) == 500
    ensures Status(RequestOutcomeIntended(cache, defaultRegion, h, config, rt)) == 403
  {
  }

  /**
   * The JWKS cache after a request: it changes only once the headers pass, and then as
   * validating the token as a JWT leaves it. Entries are only ever added, and only for the
   * pool and region of the request.
   */
  function RequestCache(cache: JwksCache, defaultRegion: string, h: RequestHeaders, rt: Runtime): (r: JwksCache)
    ensures Admit(h, rt).Err? ==> r == cache
    ensures forall k :: k in cache ==> k in r && r[k] == cache[k]
    ensures forall k :: k in r && k !in cache
              ==> Admit(h, rt).Ok?
                  && k == CacheKey(ResolveRegion(Admit(h, rt).value.region, defaultRegion), Admit(h, rt).value.userPoolId)
  {
    match Admit(h, rt)
    case Err(_) => cache
    case Ok(a) =>
      var region := ResolveRegion(a.region, defaultRegion);
      JwtCacheEffect(cache, a.token, a.userPoolId, region, rt.services);
      JwtOutcome(cache, a.token, a.userPoolId, region, rt.services).1
  }

  /**
   * The boto3 clients after a request: a client for the request's region is added exactly
   * when the headers pass and JWT validation fails, so that the boto3 fallback runs.
   */
  function RequestClients(clients: map<string, CognitoClient>, cache: JwksCache, defaultRegion: string,
                          h: RequestHeaders, rt: Runtime): (r: map<string, CognitoClient>)
    ensures Admit(h, rt).Err? ==> r == clients
    ensures Admit(h, rt).Ok? ==>
              var a := Admit(h, rt).value;
              var region := ResolveRegion(a.region, defaultRegion);
              r == if JwtOutcome(cache, a.token, a.userPoolId, region, rt.services).0.Ok? then clients
                   else clients[region := CognitoClient(region)]
  {
    match Admit(h, rt)
    case Err(_) => clients
    case Ok(a) =>
      var region := ResolveRegion(a.region, defaultRegion);
      if JwtOutcome(cache, a.token, a.userPoolId, region, rt.services).0.Ok? then clients
      else clients[region := CognitoClient(region)]
  }

  /**
   * The JWKS requests a request makes: none when the headers fail, otherwise those of JWT
   * validation for the request's pool and resolved region.
   */
  function RequestJwksRequests(cache: JwksCache, defaultRegion: string, h: RequestHeaders, rt: Runtime): (r: seq<string>)
    ensures Admit(h, rt).Err? ==> r == []
    ensures r != [] ==>
              var a := Admit(h, rt).value;
              var region := ResolveRegion(a.region, defaultRegion);
              && CacheKey(region, a.userPoolId) !in cache
              && r == [JwksUrl(region, a.userPoolId)]
  {
    match Admit(h, rt)
    case Err(_) => []
    case Ok(a) => JwtRequests(cache, a.token, a.userPoolId, ResolveRegion(a.region, defaultRegion), rt.services)
  }

  /** `validate_request`, on the validator whose caches persist between requests. */
  method ValidateRequest(v: CognitoValidator, h: RequestHeaders, config: ScopesConfig, rt: Runtime)
    returns (response: Response)
    requires v.Valid()
    modifies v
    ensures v.Valid()
    ensures response == RequestOutcome(old(v.jwksCache), v.defaultRegion, h, config, rt)
    ensures v.jwksCache == RequestCache(old(v.jwksCache), v.defaultRegion, h, rt)
    ensures v.cognitoClients == RequestClients(old(v.cognitoClients), old(v.jwksCache), v.defaultRegion, h, rt)
    ensures v.jwksRequests == old(v.jwksRequests) + RequestJwksRequests(old(v.jwksCache), v.defaultRegion, h, rt)
  {
    var admitted := Admit(h, rt);
    if admitted.Err? {
      return Finalize(Err(admitted.error));
    }
    var a := admitted.value;
    var token := v.ValidateToken(a.token, a.userPoolId, a.clientId, a.region, rt.services);
    if token.Err? {
      return Finalize(Err(token.error));
    }
    var info := token.value;
    var tool := ExtractToolName(a, rt);
    if ScopeCheckApplies(a.payload, a.serverName, tool, info.scopes) {
      var allowed := ValidateServerToolAccess(config, a.serverName.value, tool, info.scopes);
      if !allowed {
        return Finalize(Err(HttpException(403, "Access denied to " + a.serverName.value + "." + Str(tool, rt.services.repr), false)));
      }
    }
    response := Finalize(GrantResponse(a, info, tool, rt));
  }
}
