/**
 * Helpers of the command-line client of the MCP gateway's own server (servers/mcpgw/client.py):
 * the SSE endpoint URL, the `--test-register-service` switch, and the text of a tool result.
 */
module McpgwClient {
  import opened Wrappers
  import opened Text
  import GatewayAccess

  // ---------------------------------------------------------------------------
  // The SSE URL

  /** `http{secure}://{host}:{port}/{server_name}/sse`, with `secure` set only for port 443. */
  function SseUrl(host: string, port: int, serverName: string): string
  {
    var secure := if port == 443 then "s" else "";
    "http" + secure + "://" + host + ":" + IntToDecimal(port) + "/" + serverName + "/sse"
  }

  /** The scheme the URL should carry: https exactly on port 443. */
  function ExpectedScheme(port: int): string
  {
    if port == 443 then "https" else "http"
  }

  /** `str(port)` never holds a colon or a slash. */
  lemma DecimalHasNoDelimiters(n: int)
    ensures ':' !in IntToDecimal(n) && '/' !in IntToDecimal(n)
  {
    IntRoundTrip(n);
    var s := IntToDecimal(n);
    var digits := if s[0] == '-' then s[1..] else s;
    assert forall k :: 0 <= k < |s| ==> s[k] == '-' || '0' <= s[k] <= '9' by {
      forall k | 0 <= k < |s|
        ensures s[k] == '-' || '0' <= s[k] <= '9'
      {
        if s[0] == '-' && k > 0 {
          assert s[k] == digits[k - 1];
        }
      }
    }
  }

  /** The URL in three pieces: scheme and `://`, the authority `host:port`, the path. */
  lemma SseUrlPieces(host: string, port: int, serverName: string)
    ensures SseUrl(host, port, serverName)
         == (ExpectedScheme(port) + "://") + ((host + ":" + IntToDecimal(port)) + ("/" + serverName + "/sse"))
  {
    var secure := if port == 443 then "s" else "";
    assert "http" + secure + "://" == ExpectedScheme(port) + "://";
    Regroup("http" + secure + "://", host, ":", IntToDecimal(port), "/", serverName, "/sse");
  }

  lemma Regroup(a: string, b: string, c: string, d: string, e: string, f: string, g: string)
    ensures a + b + c + d + e + f + g == a + ((b + c + d) + (e + f + g))
  {
  }

  /**
   * The URL is the expected scheme, then the authority `host:port` with the port always
   * written (it reads back as the same number), then the path `/<server_name>/sse`, from
   * which the gateway reads the server name.
   */
  lemma SseUrlParts(host: string, port: int, serverName: string)
    requires ':' !in host && '/' !in host
    requires serverName != "" && '/' !in serverName
    ensures var url := SseUrl(host, port, serverName);
            var prefix := ExpectedScheme(port) + "://";
            && prefix <= url
            && var rest := url[|prefix|..];
               var authority := host + ":" + IntToDecimal(port);
               && Split(rest, '/') == [authority, serverName, "sse"]
               && Split(authority, ':') == [host, IntToDecimal(port)]
               && IntValue(IntToDecimal(port)) == port
               && rest[|authority|..] == "/" + serverName + "/sse"
               && GatewayAccess.ServerNameFromPath(rest[|authority|..]) == Some(serverName)
  {
    var p := IntToDecimal(port);
    var prefix := ExpectedScheme(port) + "://";
    var authority := host + ":" + p;
    var path := "/" + serverName + "/sse";
    SseUrlPieces(host, port, serverName);
    ConcatSlices(prefix, authority + path);
    ConcatSlices(authority, path);
    DecimalHasNoDelimiters(port);
    IntRoundTrip(port);
    PathSplit(authority, serverName);
    AuthoritySplit(host, p);
    GatewayAccess.ServerNameOfSsePath(serverName);
  }

  /** Splitting `authority/<server_name>/sse` at the slashes. */
  lemma PathSplit(authority: string, serverName: string)
    requires '/' !in authority && '/' !in serverName
    ensures Split(authority + ("/" + serverName + "/sse"), '/') == [authority, serverName, "sse"]
  {
    assert '/' !in "sse";
    PathShape(authority, serverName);
    Split3(authority, serverName, "sse", '/');
  }

  lemma PathShape(authority: string, serverName: string)
    ensures authority + ("/" + serverName + "/sse") == authority + ['/'] + serverName + ['/'] + "sse"
  {
  }

  /** Splitting `host:port` at the colon. */
  lemma AuthoritySplit(host: string, p: string)
    requires ':' !in host && ':' !in p
    ensures Split(host + ":" + p, ':') == [host, p]
  {
    assert host + ":" + p == host + [':'] + p;
    SplitPair(host, p, ':');
  }

  /** Which scheme the URL starts with depends on the port alone. */
  lemma SseUrlScheme(host: string, port: int, serverName: string)
    ensures "https://" <= SseUrl(host, port, serverName) <==> port == 443
    ensures "http://" <= SseUrl(host, port, serverName) <==> port != 443
  {
    var prefix := ExpectedScheme(port) + "://";
    var rest := (host + ":" + IntToDecimal(port)) + ("/" + serverName + "/sse");
    SseUrlPieces(host, port, serverName);
    ConcatSlices(prefix, rest);
    var url := prefix + rest;
    assert url[4] == prefix[4];
    if port == 443 {
      assert prefix == "https://" && prefix[4] == 's';
    } else {
      assert prefix == "http://" && prefix[4] == ':';
    }
  }

  // ---------------------------------------------------------------------------
  // The register-service switch

  /**
   * `flag and flag.lower() in ["true", "yes"]`. Only A-Z are lowered here: no other
   * character lower-cases to a letter of "true" or "yes".
   */
  predicate RunsRegisterExample(flag: string)
  {
    flag != "" && AsciiLower(flag) in ["true", "yes"]
  }

  /** `c` is the lower-case letter `lower` or its upper-case form. */
  predicate SameLetterIgnoringCase(c: char, lower: char)
  {
    c == lower || c as int == lower as int - 32
  }

  /** `s` spells the lower-case word `lower` in any mix of cases. */
  predicate EqualsIgnoringCase(s: string, lower: string)
  {
    |s| == |lower| && forall k :: 0 <= k < |s| ==> SameLetterIgnoringCase(s[k], lower[k])
  }

  lemma LowerMatches(s: string, lower: string)
    requires forall k :: 0 <= k < |lower| ==> 'a' <= lower[k] <= 'z'
    ensures AsciiLower(s) == lower <==> EqualsIgnoringCase(s, lower)
  {
    if |s| == |lower| {
      assert (forall k :: 0 <= k < |s| ==> LowerChar(s[k]) == lower[k]) <==> EqualsIgnoringCase(s, lower);
      if AsciiLower(s) != lower {
        var k :| 0 <= k < |s| && AsciiLower(s)[k] != lower[k];
        assert LowerChar(s[k]) != lower[k];
      }
    }
  }

  /** The example runs exactly for "true" or "yes" in any case. */
  lemma RegisterFlagSpec(flag: string)
    ensures RunsRegisterExample(flag) <==> EqualsIgnoringCase(flag, "true") || EqualsIgnoringCase(flag, "yes")
  {
    LowerMatches(flag, "true");
    LowerMatches(flag, "yes");
  }

  /** The default "false", "1" and the empty string skip it; "TRUE" and "Yes" run it. */
  lemma RegisterFlagExamples()
    ensures !RunsRegisterExample("false") && !RunsRegisterExample("1") && !RunsRegisterExample("")
    ensures RunsRegisterExample("TRUE") && RunsRegisterExample("Yes")
  {
    assert AsciiLower("TRUE") == "true";
    assert AsciiLower("Yes") == "yes";
    assert |AsciiLower("false")| == 5;
    assert AsciiLower("1") == "1";
  }

  // ---------------------------------------------------------------------------
  // The text of a tool result

  /** A part of a tool result's content; only some kinds carry `text`. */
  datatype ContentPart = TextPart(text: string) | OtherPart(kind: string)

  /** `"".join(part.text for part in content if hasattr(part, 'text'))`. */
  function ResponseText(parts: seq<ContentPart>): string
  {
    if parts == [] then ""
    else (if parts[0].TextPart? then parts[0].text else "") + ResponseText(parts[1..])
  }

  /** The texts of the parts that have one, in order. */
  function TextsOf(parts: seq<ContentPart>): (texts: seq<string>)
    ensures |texts| <= |parts|
  {
    if parts == [] then []
    else (if parts[0].TextPart? then [parts[0].text] else []) + TextsOf(parts[1..])
  }

  /** The response text is the texts of the text parts joined with no separator. */
  lemma {:induction false} ResponseTextIsJoin(parts: seq<ContentPart>)
    ensures ResponseText(parts) == Join(TextsOf(parts), "")
  {
    if parts != [] {
      ResponseTextIsJoin(parts[1..]);
      var rest := TextsOf(parts[1..]);
      if parts[0].TextPart? {
        var t := parts[0].text;
        assert TextsOf(parts) == [t] + rest;
        if rest == [] {
          assert [t] + rest == [t];
        } else {
          JoinCons(t, "", rest);
          assert t + "" == t;
        }
      } else {
        assert TextsOf(parts) == rest;
      }
    }
  }

  /** Content received in two pieces gives the texts of both pieces, in order. */
  lemma {:induction false} ResponseTextAppend(a: seq<ContentPart>, b: seq<ContentPart>)
    ensures ResponseText(a + b) == ResponseText(a) + ResponseText(b)
  {
    if a != [] {
      ResponseTextAppend(a[1..], b);
      assert (a + b)[1..] == a[1..] + b;
    } else {
      assert a + b == b;
    }
  }
}
