/**
 * The authorization decision of the auth server (auth_server/server.py): which MCP server
 * a request addresses, read off the first segment of the original URL's path, and whether
 * one of the caller's scopes grants the tool on that server according to scopes.yml.
 */
module GatewayAccess {
  import opened Wrappers
  import opened Text
  import opened PyValues

  // ---------------------------------------------------------------------------
  // Server name from the original URL

  /** `path.strip('/')`, split on `/`, first field; None when nothing but slashes is left. */
  function ServerNameFromPath(path: string): Option<string>
  {
    var stripped := Strip(path, '/');
    var parts := if stripped != "" then Split(stripped, '/') else [];
    if parts != [] then Some(parts[0]) else None
  }

  /** `name` sits at offset `k` of `path`, after slashes only, and ends at the end or at a slash. */
  ghost predicate SegmentAt(path: string, name: string, k: int)
  {
    && 0 <= k <= |path| - |name|
    && (forall i :: 0 <= i < k ==> path[i] == '/')
    && path[k..k + |name|] == name
    && (k + |name| == |path| || path[k + |name|] == '/')
  }

  /** `name` is the first `/`-separated segment of `path` once leading slashes are skipped. */
  ghost predicate IsFirstSegment(path: string, name: string)
  {
    name != "" && '/' !in name && exists k :: SegmentAt(path, name, k)
  }

  /** The server name is absent exactly for an all-slash path, and otherwise is its first segment. */
  lemma ServerNameFromPathSpec(path: string)
    ensures ServerNameFromPath(path).None? <==> forall k :: 0 <= k < |path| ==> path[k] == '/'
    ensures ServerNameFromPath(path).Some? ==> IsFirstSegment(path, ServerNameFromPath(path).value)
  {
    if ServerNameFromPath(path).None? {
      AllSlashes(path);
    } else {
      FirstSegment(path);
    }
  }

  lemma AllSlashes(path: string)
    requires ServerNameFromPath(path).None?
    ensures forall k :: 0 <= k < |path| ==> path[k] == '/'
  {
    var left := TrimLeft(path, '/');
    assert TrimRight(left, '/') == "";
  }

  lemma FirstSegment(path: string)
    requires ServerNameFromPath(path).Some?
    ensures IsFirstSegment(path, ServerNameFromPath(path).value)
    ensures exists k :: 0 <= k < |path| && path[k] != '/'
  {
    var left := TrimLeft(path, '/');
    var stripped := TrimRight(left, '/');
    var k := |path| - |left|;
    var j := IndexOf(stripped, '/');
    var name := stripped[..j];
    assert ServerNameFromPath(path) == Some(name) by {
      assert Strip(path, '/') == stripped;
      SplitHead(stripped, '/');
    }
    assert stripped[0] == left[0];
    SegmentOfTrimmed(path, left, stripped, k, j);
    assert path[k] == left[0];
  }

  lemma SegmentOfTrimmed(path: string, left: string, stripped: string, k: int, j: int)
    requires 0 <= k <= |path| && left == path[k..] && forall i :: 0 <= i < k ==> path[i] == '/'
    requires stripped != "" && |stripped| <= |left| && stripped == left[..|stripped|]
    requires stripped[0] != '/' && forall i :: |stripped| <= i < |left| ==> left[i] == '/'
    requires 0 < j <= |stripped| && (j < |stripped| ==> stripped[j] == '/')
    requires forall i :: 0 <= i < j ==> stripped[i] != '/'
    ensures IsFirstSegment(path, stripped[..j])
  {
    assert path[k..k + j] == stripped[..j];
    if j == |stripped| && k + j < |path| {
      assert path[k + j] == left[j];
    }
    assert SegmentAt(path, stripped[..j], k);
  }

  /** A path has at most one first segment. */
  lemma FirstSegmentUnique(path: string, n1: string, n2: string)
    requires IsFirstSegment(path, n1) && IsFirstSegment(path, n2)
    ensures n1 == n2
  {
    var k1 :| SegmentAt(path, n1, k1);
    var k2 :| SegmentAt(path, n2, k2);
    assert path[k1] == n1[0] && path[k2] == n2[0];
    assert k1 <= k2 && k2 <= k1;
    assert forall i :: 0 <= i < |n1| ==> path[k1 + i] == n1[i];
    assert forall i :: 0 <= i < |n2| ==> path[k2 + i] == n2[i];
    assert |n1| <= |n2| && |n2| <= |n1|;
    assert n1 == path[k1..k1 + |n1|] == n2;
  }

  /** The gateway reads `name` back from any path `/name/...`: the URL builders rely on this. */
  lemma ServerNameOfPrefixedPath(name: string, rest: string)
    requires name != "" && '/' !in name
    ensures ServerNameFromPath("/" + name + "/" + rest) == Some(name)
  {
    var path := "/" + name + "/" + rest;
    assert path[1..1 + |name|] == name;
    assert SegmentAt(path, name, 1);
    assert path[1] == name[0] && name[0] != '/';
    ServerNameFromPathSpec(path);
    FirstSegmentUnique(path, ServerNameFromPath(path).value, name);
  }

  /**
   * In particular the gateway reads `name` back from the SSE endpoint path `/name/sse`,
   * whose `/`-separated fields are "", the name and "sse".
   */
  lemma ServerNameOfSsePath(name: string)
    requires name != "" && '/' !in name
    ensures ServerNameFromPath("/" + name + "/sse") == Some(name)
    ensures Split("/" + name + "/sse", '/') == ["", name, "sse"]
  {
    SsePathShape(name);
    ServerNameOfPrefixedPath(name, "sse");
    assert '/' !in "sse";
    Split3("", name, "sse", '/');
  }

  lemma SsePathShape(name: string)
    ensures "/" + name + "/sse" == "/" + name + "/" + "sse"
    ensures "/" + name + "/sse" == "" + ['/'] + name + ['/'] + "sse"
  {
  }

  /** `parse_server_and_tool_from_url`: `pathOf` is `urlparse(url).path`, None when urlparse raises. */
  function ParseServerAndToolFromUrl(url: string, pathOf: string -> Option<string>): (r: (Option<string>, Option<string>))
    ensures r.1 == None
    ensures pathOf(url).None? ==> r.0 == None
    ensures pathOf(url).Some? ==> r.0 == ServerNameFromPath(pathOf(url).value)
  {
    match pathOf(url)
    case None => (None, None)
    case Some(path) => (ServerNameFromPath(path), None)
  }

  // ---------------------------------------------------------------------------
  // Scope configuration and the access decision

  /** One entry of a permission list in scopes.yml; a missing `server` reads as null, missing `tools` as []. */
  datatype ServerGrant = ServerGrant(server: Json, tools: seq<Json>)

  /** The configuration of one scope: permission type (`read`, `execute`, ...) to its entries. */
  type ScopeConfig = map<string, seq<ServerGrant>>

  /** scopes.yml: scope name to scope configuration. An empty or absent file is the empty map. */
  type ScopesConfig = map<string, ScopeConfig>

  /** The permission types consulted, in order. */
  const PermissionTypes: seq<string> := ["read", "execute"]

  /** `SCOPES_CONFIG.get(scope, {}).get(permission, [])`. */
  function GrantsFor(config: ScopesConfig, scope: string, permission: string): seq<ServerGrant>
  {
    if scope in config && permission in config[scope] then config[scope][permission] else []
  }

  /** `server_config.get('server') == server_name and tool_name in server_config.get('tools', [])`, with Python's `==`. */
  predicate GrantAllows(g: ServerGrant, server: string, tool: Json)
  {
    PyEq(g.server, JStr(server)) && PyIn(tool, g.tools)
  }

  predicate ListAllows(grants: seq<ServerGrant>, server: string, tool: Json)
  {
    exists g :: g in grants && GrantAllows(g, server, tool)
  }

  predicate ScopeAllows(config: ScopesConfig, scope: string, server: string, tool: Json)
  {
    exists p :: p in PermissionTypes && ListAllows(GrantsFor(config, scope, p), server, tool)
  }

  /**
   * The access rule: everything is allowed when no scope configuration is loaded; otherwise
   * some scope of the caller must be configured with a `read` or `execute` entry for exactly
   * this server whose tool list holds exactly this tool.
   */
  predicate AccessAllowed(config: ScopesConfig, server: string, tool: Json, userScopes: seq<string>)
  {
    config == map[] || exists s :: s in userScopes && ScopeAllows(config, s, server, tool)
  }

  /** `validate_server_tool_access`: the nested search over scopes, permission types and entries. */
  method ValidateServerToolAccess(config: ScopesConfig, serverName: string, toolName: Json, userScopes: seq<string>)
    returns (allowed: bool)
    ensures config == map[] ==> allowed
    ensures allowed == AccessAllowed(config, serverName, toolName, userScopes)
  {
    if config == map[] {
      return true;
    }
    for i := 0 to |userScopes|
      invariant forall k :: 0 <= k < i ==> !ScopeAllows(config, userScopes[k], serverName, toolName)
    {
      var scope := userScopes[i];
      var scopeConfig: ScopeConfig := if scope in config then config[scope] else map[];
      for p := 0 to |PermissionTypes|
        invariant forall q :: 0 <= q < p ==> !ListAllows(GrantsFor(config, scope, PermissionTypes[q]), serverName, toolName)
      {
        var permission := PermissionTypes[p];
        var servers := if permission in scopeConfig then scopeConfig[permission] else [];
        assert servers == GrantsFor(config, scope, permission);
        for j := 0 to |servers|
          invariant forall k :: 0 <= k < j ==> !GrantAllows(servers[k], serverName, toolName)
        {
          if PyEq(servers[j].server, JStr(serverName)) && PyIn(toolName, servers[j].tools) {
            assert GrantAllows(servers[j], serverName, toolName);
            assert ScopeAllows(config, scope, serverName, toolName);
            return true;
          }
        }
      }
    }
    return false;
  }

  /**
   * As in Python, where `True == 1`: a tool list holding the number 1 grants a request whose
   * tool name is `true`, and a list holding `false` grants tool 0; a tool named by a string
   * is granted only by that same string.
   */
  lemma ToolListUsesPythonEquality(server: string, name: string, tools: seq<Json>)
    ensures GrantAllows(ServerGrant(JStr(server), [JNum(1)]), server, JBool(true))
    ensures GrantAllows(ServerGrant(JStr(server), [JBool(false)]), server, JNum(0))
    ensures GrantAllows(ServerGrant(JStr(server), tools), server, JStr(name)) <==> JStr(name) in tools
  {
    PyEqFacts(JBool(true), JNum(1), server);
    assert PyEq(JStr(server), JStr(server));
    assert PyEq([JNum(1)][0], JBool(true));
    assert PyEq([JBool(false)][0], JNum(0));
    forall i | 0 <= i < |tools|
      ensures PyEq(tools[i], JStr(name)) <==> tools[i] == JStr(name)
    {
      PyEqFacts(tools[i], JStr(name), name);
    }
  }

  /** Scopes that scopes.yml does not configure grant nothing. */
  lemma UnknownScopesGrantNothing(config: ScopesConfig, server: string, tool: Json, userScopes: seq<string>)
    requires config != map[]
    requires forall s :: s in userScopes ==> s !in config
    ensures !AccessAllowed(config, server, tool, userScopes)
  {
  }

  /** Holding more scopes never turns an allowed access into a denied one. */
  lemma MoreScopesNeverDeny(config: ScopesConfig, server: string, tool: Json, userScopes: seq<string>, more: seq<string>)
    requires AccessAllowed(config, server, tool, userScopes)
    requires forall s :: s in userScopes ==> s in more
    ensures AccessAllowed(config, server, tool, more)
  {
  }
}
