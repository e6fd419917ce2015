# MCP gateway decision logic in Dafny

This project models the decision logic of an MCP gateway and proves properties of it. The gateway puts an
auth server in front of MCP servers. A reverse proxy asks the auth server's `/validate`
endpoint about every request and forwards the request only on a 200 answer.

What is modelled:

- **Access decision** (`gateway_access.dfy`, module `GatewayAccess`). The server name is the first
  segment of the original URL's path. Access is allowed when some scope of the caller has a
  `read` or `execute` entry in `scopes.yml` for that server and tool.
- **Token validation** (`cognito_validation.dfy`, module `CognitoValidation`).
  `SimplifiedCognitoValidator` is a class.
  - Its JWKS cache (parsed JSON documents) and boto3 client cache are `map` fields that its methods update.
  - A ghost log records the JWKS URLs it requested.
  - Each method is proved equal to a pure function of the cache it starts from (`JwksLookup`,
    `JwtOutcome`, `TokenOutcome`). The properties are proved about those functions.
- **The `/validate` handler** (`auth_gateway.dfy`, module `AuthGateway`). It models:
  - the ordered header checks and the bearer token;
  - tool-name extraction from the JSON-RPC payload;
  - the gate that decides when the scope check runs;
  - the response headers, which must encode as latin-1;
  - the two `except` clauses that decide the final status.

  `ValidateRequest` runs on the validator object. It is proved equal to `RequestOutcome`.
- **Token request builder** (`cognito_utils.dfy`, module `CognitoUtils`). `generate_token` builds
  an OAuth 2.0 client-credentials request (section 4.4 of RFC 6749) for the pool's hosted domain.
- **Agent helpers** (`agent.dfy`, module `Agent`): the calculator's whitelist and its `^`
  rewrite, the MCP server URL, message classification and the tool-call lines.
- **MCP gateway client helpers** (`mcpgw_client.dfy`, module `McpgwClient`): the SSE URL, the
  `--test-register-service` switch and the text of a tool result.

Shared modules:

- `text.dfy` (`Text`): the Python `str` operations used. These are `split(sep)`, `split()`,
  `join`, `strip`, `replace`, `lower()` and `str(int)`.
- `py_values.dfy` (`PyValues`): JSON values, truthiness, `dict.get`, `or`, `str()` and the
  exceptions.
- `wrappers.dfy` (`Wrappers`): `Option` and `Result`.

Libraries and services are parameters:

- `urlparse(...).path`
- `json.loads`
- `jwt.get_unverified_header` and `jwt.decode`
- the JWKS HTTP fetch
- boto3 `get_user`
- `requests.post`
- `eval`
- Python's `repr` of non-empty containers
- the text of a `UnicodeEncodeError`

Starlette renders an `HTTPException` as `"<status>: <detail>"`. The handler's 500 detail
embeds that string.

## Model

| member | source | states |
|---|---|---|
| Text.TrimRight | auth_server/server.py:59 | `rstrip(c)` removes exactly the trailing run of `c`: the result is a prefix and does not end in `c` |
| Text.Split | auth_server/server.py:63 | `split('/')` gives at least one field, no field holds the separator, and there is one field exactly when the separator is absent |
| Text.JoinSplit | auth_server/server.py:63 | joining the fields of a split with the separator gives the string back |
| Text.WhitespaceSplitJoin | auth_server/server.py:359 | `split()` of space-joined non-empty, space-free names gives the names back |
| Text.WhitespaceSplitWord | auth_server/server.py:359 | `split()` of a non-empty word without whitespace is that one word |
| Text.WhitespaceSplitSpace | auth_server/server.py:359 | a whitespace character splits: `split()` of `a + c + b`, with `c` whitespace, is the words of `a` followed by those of `b` |
| Text.WhitespaceSplit | auth_server/server.py:359 | definition of `split()` with no argument: the maximal runs of non-whitespace characters, in order; its properties are the three `WhitespaceSplit` lemmas |
| Text.RemoveCharOrder | auth_server/cognito_utils.py:27 | `replace(c, '')` keeps the other characters in order: each lands at the position counted by the characters kept before it |
| PyValues.PyEqFacts | auth_server/server.py:99-101 | Python's `==` on JSON values is symmetric, holds between equal values, is plain equality against a string, and makes `True == 1` and `False == 0` but not `True == 2` |
| PyValues.Or | auth_server/server.py:365-366 | `a or b` is `a` when `a` is truthy and `b` otherwise, and is truthy iff either is |
| GatewayAccess.ServerNameFromPathSpec | auth_server/server.py:58-64 | the server name is None exactly when the path is nothing but slashes; otherwise it is the first non-empty, slash-free segment after the leading slashes |
| GatewayAccess.FirstSegmentUnique | auth_server/server.py:63-64 | a path has only one first segment, so the server name is determined by the path |
| GatewayAccess.ServerNameOfPrefixedPath | auth_server/server.py:58-64 | for any path `/name/rest`, with `name` non-empty and slash-free, the server name is `name` |
| GatewayAccess.ServerNameOfSsePath | auth_server/server.py:58-64 | the server name of `/name/sse` is `name`; that path splits on `/` into "", the name and "sse" |
| GatewayAccess.ServerNameFromPath | auth_server/server.py:62-64 | definition of `path.strip('/')`, `split('/')` and the first field; characterised by `ServerNameFromPathSpec` |
| GatewayAccess.ParseServerAndToolFromUrl | auth_server/server.py:45-71 | the tool name is always None; a URL that `urlparse` rejects gives no server name; otherwise the server name is the first path segment, as `ServerNameFromPathSpec` characterises it |
| GatewayAccess.AccessAllowed | auth_server/server.py:73-106 | definition of the access rule the nested search decides; `ValidateServerToolAccess` is proved to compute it |
| GatewayAccess.ValidateServerToolAccess | auth_server/server.py:73-106 | the nested search returns true when no configuration is loaded; otherwise it returns true iff some caller scope has a `read` or `execute` entry whose server equals this server and whose tool list holds a value equal to this tool, with Python's `==` |
| GatewayAccess.UnknownScopesGrantNothing | auth_server/server.py:91-106 | with a configuration loaded, scopes it does not configure allow nothing |
| GatewayAccess.MoreScopesNeverDeny | auth_server/server.py:91-106 | adding scopes never turns an allowed access into a denied one |
| GatewayAccess.ToolListUsesPythonEquality | auth_server/server.py:99-101 | a tool list holding `1` grants the tool `true` and one holding `false` grants the tool `0`; a string tool is granted exactly by a list holding that string |
| CognitoValidation.ResolveRegion | auth_server/server.py:194-195 | the region is Python's `region or default_region`: a non-empty region is kept, and the result is empty only when the default is |
| CognitoValidation.CacheKeyInjective | auth_server/server.py:154 | for colon-free regions, distinct (region, pool) pairs have distinct cache keys |
| CognitoValidation.CacheKeyCollision | auth_server/server.py:154 | with a colon in the region, two different pairs share one cache key |
| CognitoValidation.JwksLookup | auth_server/server.py:150-172 | a cached document is returned without a request and the cache is unchanged. On a miss, a failed fetch gives `Cannot retrieve JWKS: <error>` and leaves the cache unchanged; a fetched document is stored under `region:pool` before its key count is taken, so a document whose count fails (not a dict, or `keys` null, a bool or a number) gives `Cannot retrieve JWKS: <error>` yet stays cached. No other key changes |
| CognitoValidation.JwksLookupIdempotent | auth_server/server.py:156-172 | a lookup after a successful one answers from the cache with the same document, whatever the fetch would give |
| CognitoValidation.JwksCachePoisoned | auth_server/server.py:164-170 | as written, a fetched document whose key count fails is reported as a failure and still cached; every later JWT validation for that pool answers from it without a request and fails |
| CognitoValidation.IntendedLookupRetries | auth_server/server.py:150-172 | the corrected lookup gives every request the same answer as the written one, never caches a failure, and so asks again on the next request |
| CognitoValidation.KeyCountError | auth_server/server.py:166 | `len(jwks.get('keys', []))` can be taken exactly when the document is a dict whose `keys` is absent, a string, a list or a dict |
| CognitoValidation.KeyItems | auth_server/server.py:209 | `jwks.get('keys', [])` fails for a document that fails the count; it is empty without `keys`, and is the list itself when `keys` is a list |
| CognitoValidation.FindKeySpec | auth_server/server.py:209-225 | the key chosen is the first visited dict whose `kid` equals the header's with Python's `==`; every value before it is a dict with another `kid`; there is no key exactly when every value is such a dict; a value that is not a dict, before any match, raises the `.get` `AttributeError` |
| CognitoValidation.FindKey | auth_server/server.py:209-225 | definition of the key loop as a function; `FindKeySpec` states what it finds |
| CognitoValidation.FindSigningKey | auth_server/server.py:207-225 | the loop that breaks at the first match returns what `FindKey` gives: that key, none, or the error of the first value it cannot read |
| CognitoValidation.DecodeWithKey | auth_server/server.py:227-271 | the token is accepted iff it decodes with the key and its `token_use` is `access` or `id`, and then the claims are the decoded ones; another `token_use` gives `Token validation failed: Invalid token_use: ...`; expiry gives `Token has expired`; a PyJWT `InvalidTokenError` gives `Invalid token: <error>`; any other failure gives `Token validation failed: <error>` |
| CognitoValidation.JwtOutcome | auth_server/server.py:174-271 | definition of `validate_jwt_token` as a function of the JWKS cache; `JwtAcceptance`, `JwtCacheEffect` and `JwksCachePoisoned` state its properties |
| CognitoValidation.JwtAcceptance | auth_server/server.py:194-258 | a token is accepted with given claims iff: the header parses; its `kid` is truthy; the pool's JWKS is at hand (cached or fetched) and its keys can be read; the first key with that `kid` verifies the token against the pool's issuer, giving those claims; `token_use` is accepted. The expected client id plays no part, and after an acceptance the pool's JWKS is cached |
| CognitoValidation.JwtCacheEffect | auth_server/server.py:197-206 | JWT validation leaves the cache either as it was or as the pool's JWKS lookup left it |
| CognitoValidation.JwtRequests | auth_server/server.py:156-161 | JWT validation makes at most one request, to the pool's JWKS URL, exactly when the header parses with a truthy `kid` and the pool is not cached; after it, the pool is cached exactly when the fetch succeeded |
| CognitoValidation.RequestedOnce | auth_server/server.py:156-165 | after a successful fetch no later validation for the pool makes a request, whatever its token; after a failed fetch the next validation asks as if none had been made |
| CognitoValidation.AttributeMapLastWins | auth_server/server.py:297-299 | the attribute dictionary holds exactly the listed names, and each name maps to the value of its last occurrence |
| CognitoValidation.BuildUserAttributes | auth_server/server.py:297-299 | the loop builds that dictionary |
| CognitoValidation.Boto3Error | auth_server/server.py:312-330 | NotAuthorizedException gives "Invalid or expired access token"; UserNotFoundException gives "User not found"; any other failure gives "Token validation failed: " and its message |
| CognitoValidation.Boto3Outcome | auth_server/server.py:273-330 | definition of `validate_with_boto3` for a resolved region: the user's name, attribute dictionary and status, or the `Boto3Error` text |
| CognitoValidation.ScopesOfClaims | auth_server/server.py:357-359 | no or a falsy `scope` claim gives no scopes; a string claim gives its whitespace-separated words, each non-empty and space-free; any other truthy claim raises `AttributeError` naming its type and `split` |
| CognitoValidation.ScopeClaimRoundTrip | auth_server/server.py:357-359 | a `scope` claim of space-joined names reads back as exactly those names |
| CognitoValidation.TokenOutcome | auth_server/server.py:332-392 | definition of `validate_token` as a function of the JWKS cache; `TokenOutcomeCases` states its cases |
| CognitoValidation.TokenOutcomeCases | auth_server/server.py:332-392 | `ValueError` comes exactly when both JWT and boto3 validation fail; a JWT result carries the claim's scopes; a boto3 result has no scopes and an empty client id; the only other failure is a non-string `scope` claim |
| CognitoValidation.CognitoValidator.constructor | auth_server/server.py:133-142 | a new validator has the given default region and empty caches |
| CognitoValidation.CognitoValidator.GetCognitoClient | auth_server/server.py:144-148 | the client returned is bound to the region; afterwards the client cache maps the region to that client and is otherwise unchanged |
| CognitoValidation.CognitoValidator.GetJwks | auth_server/server.py:150-172 | the result and the new cache are those of `JwksLookup`, including a stored document whose key count fails; the JWKS URL is requested exactly on a cache miss |
| CognitoValidation.CognitoValidator.ValidateJwtToken | auth_server/server.py:174-271 | the result and the new cache are those of `JwtOutcome` for the resolved region; the requests made are those of `JwtRequests` |
| CognitoValidation.CognitoValidator.ValidateWithBoto3 | auth_server/server.py:273-330 | the result is `Boto3Outcome` for the resolved region: the user's name, attribute dictionary and status, or the `Boto3Error` text. The client cache gains that region's client |
| CognitoValidation.CognitoValidator.ValidateToken | auth_server/server.py:332-392 | the result is `TokenOutcome` of the cache it started from; the new JWKS cache is the one JWT validation leaves and the requests made are its `JwtRequests`; the boto3 client cache gains the resolved region's client exactly when JWT validation failed |
| AuthGateway.BearerTokenSpec | auth_server/server.py:499 | the token follows `Bearer `, holds no space, and is followed by a space or the end of the header; it is the whole rest of the header exactly when the rest has no space |
| AuthGateway.DoubleSpaceGivesEmptyToken | auth_server/server.py:499 | `Bearer  x` (two spaces) yields the empty token |
| AuthGateway.Admit | auth_server/server.py:424-499 | checks in order: a missing, empty or non-`Bearer ` Authorization gives 401 with a Bearer challenge; then a missing pool id gives 400; then a missing client id gives 400. Once they pass: the token is `BearerToken` of the header; the pool id, client id and original URL are the headers'; the region is X-Region or `us-east-1`; the server name and payload are those read from X-Original-URL and X-Body |
| AuthGateway.ServerNameOf | auth_server/server.py:431-442 | no original URL, or one `urlparse` rejects, gives no server name; otherwise it is the first segment of the URL's path |
| AuthGateway.PayloadOf | auth_server/server.py:444-459 | the payload is the JSON parse of a non-empty X-Body, and absent otherwise |
| AuthGateway.ToolNameFromObject | auth_server/server.py:524-536 | definition of the payload lookup: `method`, else `tool or name`, else `params`' `name or tool or method`; `ToolNamePriority` states it as the first truthy candidate |
| AuthGateway.ToolNamePriority | auth_server/server.py:524-536 | the tool name is the first truthy value among `method`, `tool`, `name`, and then `params.name`, `params.tool`, `params.method` when `params` is an object |
| AuthGateway.ExtractToolName | auth_server/server.py:512-536 | the tool name is the one extracted from the payload object exactly when there is an original URL, a truthy JSON object payload and a non-empty server name; otherwise it is None |
| AuthGateway.EncodeHeader | auth_server/server.py:575-581 | a header value can be set iff it is a latin-1 string; a non-latin-1 string raises `ValueError`, any other value `AttributeError` |
| AuthGateway.EncodeHeaders | auth_server/server.py:575-581 | all headers are set, in order with their values, iff every value can be set; otherwise the first failing header's exception is raised |
| AuthGateway.GrantResponse | auth_server/server.py:559-583 | the response is a 200 exactly when all seven header values can be set; its body carries the user name and client id (or empty), the scopes, method and groups, the server name and the tool name; a failure is a header-encoding error, never an `HTTPException` |
| AuthGateway.GrantedHeaders | auth_server/server.py:575-581 | a 200 response has exactly these headers, in order: X-User and X-Username (the user name, or empty), X-Client-Id (the client id, or empty), X-Scopes (the scopes joined by spaces), X-Auth-Method, X-Server-Name and X-Tool-Name (each, or empty) |
| AuthGateway.GrantedWhenAuthorized | auth_server/server.py:476-583 | a request is granted whenever its headers pass, its token is accepted, the scope check does not apply or a scope allows the tool, and the header values can be set |
| AuthGateway.GrantedComesFromAuthorize | auth_server/server.py:500-583 | a 200 comes only from a request whose headers pass and whose token is accepted, and is the answer of the scope check and response step |
| AuthGateway.RequestCache | auth_server/server.py:150-172 | the JWKS cache after a request: unchanged for bad headers; entries are only added, never changed, and only under the request's `region:pool` key |
| AuthGateway.RequestClients | auth_server/server.py:144-148 | the boto3 clients after a request: a client for the resolved region is added exactly when the headers pass and JWT validation fails |
| AuthGateway.RequestJwksRequests | auth_server/server.py:156-161 | a request whose headers fail makes no JWKS request; otherwise at most one, to the JWKS URL of its pool and resolved region, and only when that pool is not cached |
| AuthGateway.AuthorizeDeniesIff | auth_server/server.py:544-557 | the 403 is raised exactly when payload, server name, tool name and scopes are all non-empty and no scope allows the tool |
| AuthGateway.Boto3BypassesScopeCheck | auth_server/server.py:380-388 | a token without scopes, which every boto3 result is, skips the scope check |
| AuthGateway.Authorize | auth_server/server.py:543-583 | definition of the scope check and the 200 response; `AuthorizeDeniesIff` and `Boto3BypassesScopeCheck` state its cases |
| AuthGateway.Finalize | auth_server/server.py:585-597 | definition of the two `except` clauses as written; `HttpExceptionsBecome500` states the consequence |
| AuthGateway.FinalizeIntended | auth_server/server.py:585-597 | definition of the corrected handling; `IntendedKeepsStatus` relates it to `Finalize` |
| AuthGateway.RequestOutcome | auth_server/server.py:402-597 | definition of the whole request as written, as a function of the JWKS cache; the `Granted...`, `...Answers...` lemmas state its properties |
| AuthGateway.RequestOutcomeIntended | auth_server/server.py:402-597 | definition of the whole request with the corrected handling; `BadHeadersAnswer500` and `DeniedToolAnswers500` contrast the two |
| AuthGateway.HttpExceptionsBecome500 | auth_server/server.py:592-597 | as written, every `HTTPException` raised in the `try` leaves as 500, with `Internal validation error: <status>: <detail>` and no challenge; a status other than 500 is lost |
| AuthGateway.IntendedKeepsStatus | auth_server/server.py:585-597 | the corrected handling keeps an `HTTPException`'s status and detail, and agrees with the written handling otherwise |
| AuthGateway.GrantedOnlyWhenAuthorized | auth_server/server.py:476-583 | a 200 needs: headers that pass; a token that a validation method accepted; a scope that allows the tool whenever the scope check applies. X-Scopes lists the token's scopes |
| AuthGateway.BadHeadersAnswer500 | auth_server/server.py:476-482 | a bad Authorization header is answered 500 as written, and 401 with a Bearer challenge as intended |
| AuthGateway.RejectedTokenAnswers401 | auth_server/server.py:585-591 | a token that both methods reject (a `ValueError`) is answered 401 with its message and a Bearer challenge |
| AuthGateway.DeniedToolAnswers500 | auth_server/server.py:546-552 | a tool the scopes do not allow is answered 500 as written, and 403 as intended |
| AuthGateway.ValidateRequest | auth_server/server.py:402-597 | the answer on the validator object is `RequestOutcome` of the JWKS cache it started from; the new JWKS cache is `RequestCache`, the new client cache `RequestClients`, and the JWKS requests made `RequestJwksRequests` |
| CognitoUtils.DomainLabel | auth_server/cognito_utils.py:27-28 | the domain label is the pool id with every underscore removed and every other character kept, in order |
| CognitoUtils.DomainLabelOfPoolId | auth_server/cognito_utils.py:27-28 | a pool id `region_id` gives the domain `https://regionid.auth.<region>.amazoncognito.com` |
| CognitoUtils.CognitoDomain | auth_server/cognito_utils.py:27-28 | definition of the hosted domain; `DomainLabel` states its label |
| CognitoUtils.TokenUrl | auth_server/cognito_utils.py:43 | definition of the token endpoint `<domain>/oauth2/token` |
| CognitoUtils.IsTokenRequestFor | auth_server/cognito_utils.py:27-43 | definition of the request posted: the token URL, the form content type, the fields `grant_type=client_credentials`, `client_id`, `client_secret` first and in that order, then `scope` (the scopes joined by spaces) as a fourth field iff a non-empty scope list was given |
| CognitoUtils.ReorderedFormRejected | auth_server/cognito_utils.py:34-38 | the credential fields in another order (`client_secret`, `client_id`, `grant_type`) do not make the request posted: the order of the form is part of it |
| CognitoUtils.FormValueSpec | auth_server/cognito_utils.py:34-41 | a form field is found iff one has the key, and the value is the first such field's |
| CognitoUtils.CredentialFields | auth_server/cognito_utils.py:34-38 | `grant_type=client_credentials`, `client_id` and `client_secret` always come first and carry the given values |
| CognitoUtils.BuildTokenRequest | auth_server/cognito_utils.py:27-43 | the request goes to `<domain>/oauth2/token` with the form content type; its form is `grant_type`, `client_id`, `client_secret` in that order, followed by `scope` iff a non-empty scope list was given, with the scopes joined by single spaces |
| CognitoUtils.GenerateToken | auth_server/cognito_utils.py:11-55 | the request posted is a token request for the given client, pool, region and scopes. A failed post is `ValueError` with the `Cannot obtain token: ` prefix; otherwise the token data comes back unchanged |
| CognitoUtils.RequestedScopesRoundTrip | auth_server/cognito_utils.py:40-41 | requested scope names without spaces come back as the auth server's scopes when the token's `scope` claim carries the requested field |
| Agent.WhitelistBody | agents/agent.py:81 | the part of the input that the character class must cover is all of it, or all but a final newline |
| Agent.EvaluatedExpression | agents/agent.py:78-86 | definition of the text handed to `eval`: spaces removed, the whitelist checked, `^` rewritten; `CalculatorInput` states its properties |
| Agent.Calculator | agents/agent.py:57-92 | a rejected input returns the fixed error text; an accepted one returns what evaluating the rewritten expression gives, or `Error evaluating expression: ` followed by the error |
| Agent.CalculatorInput | agents/agent.py:78-86 | input is evaluated iff, with spaces removed, it matches the whitelist. What is evaluated has no space and no `^`, only digits, `+-*/().` and a final newline, and two `*` per `^` |
| Agent.CaretRewriteStars | agents/agent.py:86 | rewriting `^` as `**` adds exactly two `*` per `^` |
| Agent.ForeignCharacterRejected | agents/agent.py:78-82 | a character outside the class, other than a newline, anywhere in the input means rejection with the fixed text, whatever `eval` would do |
| Agent.McpServerUrl | agents/agent.py:114-124 | for a simple segment name the URL is `scheme://netloc` followed by the path `/<name>/sse`; the gateway reads the name back from that path |
| Agent.KindFromTextSpec | agents/agent.py:203-210 | a marker kind is chosen exactly when its marker is the first one, in SYSTEM, HUMAN, AI, TOOL order, that the text contains |
| Agent.KindFromText | agents/agent.py:203-210 | definition of the marker search in SYSTEM, HUMAN, AI, TOOL order; `KindFromTextSpec` characterises it |
| Agent.ClassificationPriority | agents/agent.py:199-223 | the type name decides; the string form decides only when the name has no marker; UNKNOWN exactly when neither has one |
| Agent.ClassifyMessage | agents/agent.py:199-223 | definition of the message classification; `ClassificationPriority` states its priority |
| Agent.ToolCallLine | agents/agent.py:232-234 | a call without `name` is shown as `Tool: unknown, Args: ...`; one without `args` ends in `, Args: {}` |
| Agent.ToolCallLines | agents/agent.py:229-234 | the loop yields one line per tool call, in order |
| McpgwClient.SseUrlParts | servers/mcpgw/client.py:181-188 | the URL starts with the expected scheme and `://`; the rest splits on `/` into `host:port`, the server name and `sse`. The port is always written and reads back as the number. The gateway reads the server name from the path |
| McpgwClient.SseUrlScheme | servers/mcpgw/client.py:181-184 | the URL starts with `https://` iff the port is 443, and with `http://` otherwise |
| McpgwClient.SseUrl | servers/mcpgw/client.py:181-188 | definition of the SSE URL; `SseUrlParts` and `SseUrlScheme` state its shape |
| McpgwClient.RegisterFlagSpec | servers/mcpgw/client.py:100 | the register example runs iff the flag spells `true` or `yes` in any mix of cases |
| McpgwClient.RegisterFlagExamples | servers/mcpgw/client.py:170-175 | the default `false`, `1` and the empty string skip it; `TRUE` and `Yes` run it |
| McpgwClient.RunsRegisterExample | servers/mcpgw/client.py:100 | definition of the register switch; `RegisterFlagSpec` characterises it |
| McpgwClient.ResponseTextIsJoin | servers/mcpgw/client.py:85 | the response text is the texts of the parts that have one, joined with no separator |
| McpgwClient.ResponseTextAppend | servers/mcpgw/client.py:126 | the text of content received in two pieces is the text of the first piece followed by that of the second |
| McpgwClient.ResponseText | servers/mcpgw/client.py:85 | definition of the result text; `ResponseTextIsJoin` and `ResponseTextAppend` state its properties |

## Left out

- Network, cryptography and library parsing are parameters:
  - the JWKS HTTP request, JWT signature, expiry and `iat` checks, and PyJWT's key conversion;
  - boto3 `get_user` and `requests.post`;
  - `urlparse`, `json.loads` and `eval`.

  The model fixes only which outcome of each leads where.
- The text of library exceptions (`str(e)` of a JWT, requests or JSON error) is taken as given.
- JSON numbers are integers; floats are not modelled.
- PyValues.PyEq: Python's `==` is modelled exactly for scalars (`True == 1`, `False == 0`); lists and dicts are compared structurally, so `[True] == [1]` inside a container is not equated as Python would. Server names and tool names in `scopes.yml` are scalars.
- GatewayAccess.ValidateServerToolAccess: it does not model a malformed `scopes.yml`. Such a file has non-dict entries, or `tools` given as a string, where `in` would test substrings. The source's `except` then returns false. The configuration type admits only well-formed entries.
- Loading `scopes.yml`, logging, the FastAPI app, uvicorn, argparse, and the `/health` and `/config` endpoints are framework and I/O code.
- CognitoValidation.CognitoValidator.GetCognitoClient: creating a boto3 client is taken to succeed. The client is a value bound to its region.
- CognitoValidation.CognitoValidator.ValidateWithBoto3: it does not model a `UserAttributes` entry without `Name` or `Value`. The source's `KeyError` is turned into `Token validation failed: ...`.
- CognitoValidation.CognitoValidator.ValidateToken: only the fields of the result that the handler reads are modelled. The `data`, `expires_at` and `user_attributes` entries are not.
- AuthGateway.ValidateRequest: the JSON body of the 200 response is modelled as a record. Its serialisation is not modelled.
- Text.AsciiLower: only A-Z are lowered. The Unicode case mappings of Python's `lower()` are not modelled.
- Agent.McpServerUrl: `urljoin` is modelled only for a base with an authority and an empty path, and a server name that is one plain path segment. Other names (dot segments, `?`, `#`, `:`, slashes) are outside the model.
- Agent.Calculator: `eval` and `str()` of its result are a parameter. Float division and unbounded exponentiation are not modelled.
- The LangGraph agent, the Bedrock model, the MCP SSE sessions and the `run` bodies of both clients are left out. This includes their JSON pretty-printing and ANSI colouring. They are asynchronous network and output code.
- A missing `--test-register-service` value is not modelled: argparse always supplies a string, `false` by default.

## Findings

| source | as written | input that shows it | evidently intended | confidence | as-written member | corrected member |
|---|---|---|---|---|---|---|
| auth_server/server.py:592-597 | the `except Exception` clause also catches the handler's own `HTTPException`s (401, 400 and 403, raised inside the `try`) and answers 500 with `Internal validation error: <status>: <detail>` | a request without an Authorization header; or one whose scopes do not allow the tool | the 401 (with its Bearer challenge), 400 and 403 reach the client unchanged | not executed | AuthGateway.HttpExceptionsBecome500 | AuthGateway.IntendedKeepsStatus |
| auth_server/server.py:164-170 | `_get_jwks` stores the fetched document in the cache before logging `len(jwks.get('keys', []))`; when that raises, the fetch is reported as failed but the document stays cached | a JWKS URL answering `[]`, or `{"keys": null}` | only a document that was read without error is cached, so a failure is retried on the next request | not executed | CognitoValidation.JwksCachePoisoned | CognitoValidation.IntendedLookupRetries |
