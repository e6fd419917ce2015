/**
 * Helpers of the LangGraph agent (agents/agent.py): the calculator tool's input whitelist and
 * its `^` rewrite, the MCP server URL built from the registry URL, and the classification of
 * the agent's messages and their tool calls for display.
 */
module Agent {
  import opened Wrappers
  import opened Text
  import opened PyValues
  import GatewayAccess

  // ---------------------------------------------------------------------------
  // The calculator tool

  const CalculatorRejection: string := "Error: Only basic arithmetic operations (+, -, *, /, ^, (), .) are allowed."
  const EvalErrorPrefix: string := "Error evaluating expression: "

  // The characters of the class `[0-9+\-*/().^ ]`.
  predicate Whitelisted(c: char)
  {
    '0' <= c <= '9' || c in "+-*/().^ "
  }

  // `re.match(r'^[0-9+\-*/().^ ]+$', s)`: one or more whitelisted characters, where `$` also
  // matches before a single final newline.
  predicate MatchesWhitelist(s: string)
  {
    var body := WhitelistBody(s);
    body != [] && forall k :: 0 <= k < |body| ==> Whitelisted(body[k])
  }

  /** The part of `s` the character class must cover: all of it but a final newline. */
  function WhitelistBody(s: string): (body: string)
    ensures body <= s && |s| - 1 <= |body|
    ensures |body| < |s| ==> s[|s| - 1] == '\n'
  {
    if s != [] && s[|s| - 1] == '\n' then s[..|s| - 1] else s
  }

  /** The string the calculator hands to `eval`, or None when the whitelist rejects the input. */
  function EvaluatedExpression(expression: string): Option<string>
  {
    var squeezed := RemoveChar(expression, ' ');
    if MatchesWhitelist(squeezed) then Some(ReplaceChar(squeezed, '^', "**")) else None
  }

  /**
   * `calculator`: `eval` stands for Python's evaluation and `str()` of its result, or the text
   * of the exception it raises.
   */
  function Calculator(expression: string, eval: string -> Result<string, string>): (r: string)
    ensures EvaluatedExpression(expression).None? ==> r == CalculatorRejection
    ensures EvaluatedExpression(expression).Some? && eval(EvaluatedExpression(expression).value).Err?
            ==> EvalErrorPrefix <= r
    ensures EvaluatedExpression(expression).Some? ==>
              var e := EvaluatedExpression(expression).value;
              && (eval(e).Ok? ==> r == eval(e).value)
              && (eval(e).Err? ==> r == EvalErrorPrefix + eval(e).error)
  {
    match EvaluatedExpression(expression)
    case None => CalculatorRejection
    case Some(e) =>
      match eval(e)
      case Ok(v) => v
      case Err(m) => EvalErrorPrefix + m
  }

  // The characters that may reach `eval`: digits, `+-*/().` and a final newline.
  predicate Evaluable(c: char)
  {
    '0' <= c <= '9' || c in "+-*/()." || c == '\n'
  }

  // An input is evaluated exactly when, spaces removed, it matches the whitelist; what is
  // evaluated has no space and no `^`, only evaluable characters, and two `*` for each `^`.
  lemma CalculatorInput(expression: string)
    ensures EvaluatedExpression(expression).Some? <==> MatchesWhitelist(RemoveChar(expression, ' '))
    ensures EvaluatedExpression(expression).Some? ==>
              var e := EvaluatedExpression(expression).value;
              var squeezed := RemoveChar(expression, ' ');
              && ' ' !in e && '^' !in e
              && (forall k :: 0 <= k < |e| ==> Evaluable(e[k]))
              && multiset(e)['*'] == multiset(squeezed)['*'] + 2 * multiset(squeezed)['^']
  {
    var squeezed := RemoveChar(expression, ' ');
    if MatchesWhitelist(squeezed) {
      var e := ReplaceChar(squeezed, '^', "**");
      ReplaceCharOmits(squeezed, '^', "**");
      ReplaceCharKeeps(squeezed, '^', "**", ' ');
      CaretRewriteStars(squeezed);
      WhitelistedChars(squeezed);
      ReplaceCharSource(squeezed, '^', "**");
      EvaluableChars(e, squeezed);
    }
  }

  /** A string the whitelist accepts holds only whitelisted characters and a final newline. */
  lemma WhitelistedChars(s: string)
    requires MatchesWhitelist(s)
    ensures forall d :: d in s ==> Whitelisted(d) || d == '\n'
  {
    forall d | d in s
      ensures Whitelisted(d) || d == '\n'
    {
      var k :| 0 <= k < |s| && s[k] == d;
      var body := WhitelistBody(s);
      if k < |body| {
        assert body[k] == d;
      }
    }
  }

  lemma EvaluableChars(e: string, squeezed: string)
    requires ' ' !in e && '^' !in e
    requires forall d :: d in squeezed ==> Whitelisted(d) || d == '\n'
    requires forall d :: d in e ==> d in "**" || (d in squeezed && d != '^')
    ensures forall k :: 0 <= k < |e| ==> Evaluable(e[k])
  {
    forall k | 0 <= k < |e|
      ensures Evaluable(e[k])
    {
      assert e[k] in e;
    }
  }

  /** Every character of a replacement result comes from `repl` or is a kept character of `s`. */
  lemma {:induction false} ReplaceCharSource(s: string, c: char, repl: string)
    ensures forall d :: d in ReplaceChar(s, c, repl) ==> d in repl || (d in s && d != c)
    decreases |s|
  {
    if s != [] {
      ReplaceCharSource(s[1..], c, repl);
      assert forall d :: d in s[1..] ==> d in s;
    }
  }

  /** Rewriting `^` as `**` adds two `*` per `^`. */
  lemma {:induction false} CaretRewriteStars(s: string)
    ensures multiset(ReplaceChar(s, '^', "**"))['*'] == multiset(s)['*'] + 2 * multiset(s)['^']
    decreases |s|
  {
    if s != [] {
      CaretRewriteStars(s[1..]);
      assert s == [s[0]] + s[1..];
      assert multiset("**")['*'] == 2;
    }
  }

  /** A character outside the whitelist (other than a newline) anywhere in the input means rejection. */
  lemma ForeignCharacterRejected(expression: string, k: int)
    requires 0 <= k < |expression|
    requires !Whitelisted(expression[k]) && expression[k] != '\n'
    ensures EvaluatedExpression(expression) == None
    ensures forall eval :: Calculator(expression, eval) == CalculatorRejection
  {
    var d := expression[k];
    var squeezed := RemoveChar(expression, ' ');
    RemoveCharKeepsOthers(expression, ' ');
    assert d != ' ';
    assert multiset(expression)[d] > 0;
    assert d in squeezed by {
      assert multiset(squeezed)[d] > 0;
    }
    var j :| 0 <= j < |squeezed| && squeezed[j] == d;
    var body := WhitelistBody(squeezed);
    assert j < |body| && body[j] == d;
  }

  // ---------------------------------------------------------------------------
  // The MCP server URL

  /** The parts of the registry URL that `urlparse` yields and the agent keeps. */
  datatype UrlParts = UrlParts(scheme: string, netloc: string)

  /**
   * A server name that `urljoin` treats as one relative path segment: no separator, query,
   * fragment or scheme delimiter, no blank or control character, and not a dot segment.
   */
  predicate SimpleSegment(name: string)
  {
    && name != "" && name != "." && name != ".."
    && forall k :: 0 <= k < |name| ==> name[k] !in "/?#:\\" && name[k] > ' '
  }

  /** A registry base `scheme://netloc` with an authority and an empty path. */
  predicate HierarchicalBase(registry: UrlParts)
  {
    registry.scheme in {"http", "https"} && registry.netloc != ""
    && forall k :: 0 <= k < |registry.netloc| ==> registry.netloc[k] !in "/?#"
  }

  /**
   * `urljoin(f"{scheme}://{netloc}", f"{server_name}/sse")`: a base with an authority and
   * an empty path merges a relative path under `/` (section 5.2.3 of RFC 3986), and a path
   * without dot segments is left as it is. The registry URL's own path, query and fragment
   * are dropped; the path the gateway receives names the server.
   */
  function McpServerUrl(registry: UrlParts, serverName: string): (url: string)
    requires HierarchicalBase(registry) && SimpleSegment(serverName)
    ensures var authority := registry.scheme + "://" + registry.netloc;
            && authority <= url
            && var path := url[|authority|..];
               GatewayAccess.ServerNameFromPath(path) == Some(serverName)
               && Split(path, '/') == ["", serverName, "sse"]
  {
    var authority := registry.scheme + "://" + registry.netloc;
    var path := "/" + serverName + "/sse";
    assert '/' !in serverName;
    GatewayAccess.ServerNameOfSsePath(serverName);
    assert (authority + path)[|authority|..] == path;
    authority + path
  }

  // ---------------------------------------------------------------------------
  // Message classification

  datatype MessageKind = System | Human | Ai | Tool | Unknown

  /** `sub` occurs in `s` at offset `i`. */
  predicate OccursAt(s: string, sub: string, i: int)
  {
    0 <= i <= |s| - |sub| && s[i..i + |sub|] == sub
  }

  /** `sub in s`. */
  predicate Contains(s: string, sub: string)
  {
    exists i :: 0 <= i <= |s| - |sub| && OccursAt(s, sub, i)
  }

  /** The class-name markers, and the kinds they stand for, in priority order. */
  const Markers: seq<string> := ["SystemMessage", "HumanMessage", "AIMessage", "ToolMessage"]
  const MarkedKinds: seq<MessageKind> := [System, Human, Ai, Tool]

  /** The `if`/`elif` chain over the markers. */
  function KindFromText(t: string): Option<MessageKind>
  {
    if Contains(t, "SystemMessage") then Some(System)
    else if Contains(t, "HumanMessage") then Some(Human)
    else if Contains(t, "AIMessage") then Some(Ai)
    else if Contains(t, "ToolMessage") then Some(Tool)
    else None
  }

  /** The message's type name decides; its string form is consulted only when the name has no marker. */
  function ClassifyMessage(typeName: string, text: string): MessageKind
  {
    match KindFromText(typeName)
    case Some(k) => k
    case None => KindFromText(text).GetOr(Unknown)
  }

  /** Marker `i` is the first marker, in priority order, that `t` contains. */
  predicate FirstMarkerIs(t: string, i: int)
  {
    0 <= i < |Markers| && Contains(t, Markers[i]) && forall j :: 0 <= j < i ==> !Contains(t, Markers[j])
  }

  predicate NoMarker(t: string)
  {
    forall j :: 0 <= j < |Markers| ==> !Contains(t, Markers[j])
  }

  lemma KindFromTextSpec(t: string)
    ensures KindFromText(t).None? <==> NoMarker(t)
    ensures forall i :: 0 <= i < |Markers| ==> (KindFromText(t) == Some(MarkedKinds[i]) <==> FirstMarkerIs(t, i))
  {
    assert Markers[0] == "SystemMessage" && Markers[1] == "HumanMessage";
    assert Markers[2] == "AIMessage" && Markers[3] == "ToolMessage";
  }

  /**
   * A message is of kind `MarkedKinds[i]` exactly when marker `i` is the first marker of its
   * type name, or its type name has none and marker `i` is the first of its string form; it
   * is Unknown exactly when neither has a marker.
   */
  lemma ClassificationPriority(typeName: string, text: string)
    ensures ClassifyMessage(typeName, text) == Unknown <==> NoMarker(typeName) && NoMarker(text)
    ensures forall i :: 0 <= i < |Markers| ==>
              (ClassifyMessage(typeName, text) == MarkedKinds[i]
               <==> FirstMarkerIs(typeName, i) || (NoMarker(typeName) && FirstMarkerIs(text, i)))
  {
    KindFromTextSpec(typeName);
    KindFromTextSpec(text);
  }

  // ---------------------------------------------------------------------------
  // Tool calls of a message

  /** `f"Tool: {name}, Args: {args}"` with `name` defaulting to `unknown` and `args` to `{}`. */
  function ToolCallLine(call: map<string, Json>, repr: Json -> string): (line: string)
    ensures "name" !in call ==> "Tool: unknown, Args: " <= line
    ensures "args" !in call ==> |line| >= 10 && line[|line| - 10..] == ", Args: {}"
  {
    var name := Str(GetDefault(call, "name", JStr("unknown")), repr);
    var args := Str(GetDefault(call, "args", JObj(map[])), repr);
    LineShape(name, args);
    "Tool: " + name + ", Args: " + args
  }

  lemma LineShape(name: string, args: string)
    ensures "Tool: " <= "Tool: " + name + ", Args: " + args
    ensures var line := "Tool: " + name + ", Args: " + args;
            |line| >= 8 + |args| && line[|line| - 8 - |args|..] == ", Args: " + args
  {
    var line := "Tool: " + name + ", Args: " + args;
    assert line == ("Tool: " + name) + (", Args: " + args);
  }

  /** The loop that collects one line per tool call, in order. */
  method ToolCallLines(calls: seq<map<string, Json>>, repr: Json -> string) returns (lines: seq<string>)
    ensures |lines| == |calls|
    ensures forall i :: 0 <= i < |calls| ==> lines[i] == ToolCallLine(calls[i], repr)
  {
    lines := [];
    for i := 0 to |calls|
      invariant |lines| == i
      invariant forall j :: 0 <= j < i ==> lines[j] == ToolCallLine(calls[j], repr)
    {
      lines := lines + [ToolCallLine(calls[i], repr)];
    }
  }
}
