/**
 * `generate_token` (auth_server/cognito_utils.py): the OAuth 2.0 client-credentials token
 * request (section 4.4 of RFC 6749) sent to a Cognito user pool's hosted domain.
 */
module CognitoUtils {
  import opened Wrappers
  import opened Text
  import opened PyValues
  import CognitoValidation

  /** An HTTP POST with a form-encoded body; `form` keeps the order the fields were added in. */
  datatype TokenRequest = TokenRequest(url: string, headers: seq<(string, string)>, form: seq<(string, string)>)

  const FormContentType: (string, string) := ("Content-Type", "application/x-www-form-urlencoded")
  const TokenErrorPrefix: string := "Cannot obtain token: "

  /** The hosted domain: the pool id without underscores as the first host label. */
  function CognitoDomain(userPoolId: string, region: string): string
  {
    "https://" + RemoveChar(userPoolId, '_') + ".auth." + region + ".amazoncognito.com"
  }

  function TokenUrl(userPoolId: string, region: string): string
  {
    CognitoDomain(userPoolId, region) + "/oauth2/token"
  }

  /**
   * The host label keeps every character of the pool id except the underscores, which all
   * go, and keeps them in order.
   */
  lemma DomainLabel(userPoolId: string)
    ensures '_' !in RemoveChar(userPoolId, '_')
    ensures |RemoveChar(userPoolId, '_')| == |userPoolId| - multiset(userPoolId)['_']
    ensures forall d :: d != '_' ==> multiset(RemoveChar(userPoolId, '_'))[d] == multiset(userPoolId)[d]
    ensures forall i :: 0 <= i < |userPoolId| && userPoolId[i] != '_' ==>
              |RemoveChar(userPoolId[..i], '_')| < |RemoveChar(userPoolId, '_')|
              && RemoveChar(userPoolId, '_')[|RemoveChar(userPoolId[..i], '_')|] == userPoolId[i]
  {
    RemoveCharKeepsOthers(userPoolId, '_');
    RemoveCharOrder(userPoolId, '_');
  }

  /** A pool id of the usual form `{region}_{id}` gives the host label `{region}{id}`. */
  lemma DomainLabelOfPoolId(region: string, id: string)
    requires '_' !in region && '_' !in id
    ensures RemoveChar(region + "_" + id, '_') == region + id
    ensures CognitoDomain(region + "_" + id, region) == "https://" + region + id + ".auth." + region + ".amazoncognito.com"
  {
    var withSep := region + "_";
    RemoveCharConcat(region, "_", '_');
    RemoveCharAbsent(region, '_');
    UnderscoreRemoved();
    assert RemoveChar(withSep, '_') == region;
    RemoveCharConcat(withSep, id, '_');
    RemoveCharAbsent(id, '_');
  }

  lemma UnderscoreRemoved()
    ensures RemoveChar("_", '_') == ""
  {
    assert "_"[1..] == "";
  }

  /** The value of the first field named `key`. */
  function FormValue(form: seq<(string, string)>, key: string): Option<string>
  {
    if form == [] then None
    else if form[0].0 == key then Some(form[0].1)
    else FormValue(form[1..], key)
  }

  /** A field is found exactly when one is named `key`, and the value found is the first such field's. */
  lemma {:induction false} FormValueSpec(form: seq<(string, string)>, key: string)
    ensures FormValue(form, key).None? <==> forall i :: 0 <= i < |form| ==> form[i].0 != key
    ensures FormValue(form, key).Some? ==>
              exists i :: 0 <= i < |form| && form[i] == (key, FormValue(form, key).value)
                          && forall j :: 0 <= j < i ==> form[j].0 != key
  {
    if form != [] && form[0].0 != key {
      FormValueSpec(form[1..], key);
      assert forall i :: 1 <= i < |form| ==> form[i] == form[1..][i - 1];
      if FormValue(form, key).Some? {
        var i :| 0 <= i < |form[1..]| && form[1..][i] == (key, FormValue(form, key).value)
                 && forall j :: 0 <= j < i ==> form[1..][j].0 != key;
        assert form[i + 1] == (key, FormValue(form, key).value);
        assert forall j :: 0 <= j < i + 1 ==> form[j].0 != key by {
          forall j | 0 <= j < i + 1
            ensures form[j].0 != key
          {
            if j > 0 {
              assert form[j] == form[1..][j - 1];
            }
          }
        }
      }
    } else if form != [] {
      assert form[0] == (key, FormValue(form, key).value);
    }
  }

  /** The credential fields of the form, in the order the `data` dictionary is built. */
  function CredentialForm(clientId: string, clientSecret: string): seq<(string, string)>
  {
    [("grant_type", "client_credentials"), ("client_id", clientId), ("client_secret", clientSecret)]
  }

  /**
   * The request `generate_token` posts: the three credential fields in insertion order, then
   * `scope` (the scopes joined by single spaces) only when a non-empty scope list was given.
   */
  predicate IsTokenRequestFor(request: TokenRequest, clientId: string, clientSecret: string, userPoolId: string,
                              region: string, scopes: Option<seq<string>>)
  {
    && request.url == TokenUrl(userPoolId, region)
    && request.headers == [FormContentType]
    && |request.form| == (if scopes.Some? && scopes.value != [] then 4 else 3)
    && request.form[..3] == CredentialForm(clientId, clientSecret)
    && (|request.form| == 4 ==> request.form[3].0 == "scope")
    && FormValue(request.form, "grant_type") == Some("client_credentials")
    && FormValue(request.form, "client_id") == Some(clientId)
    && FormValue(request.form, "client_secret") == Some(clientSecret)
    && (FormValue(request.form, "scope").Some? <==> scopes.Some? && scopes.value != [])
    && (FormValue(request.form, "scope").Some? ==> FormValue(request.form, "scope").value == Join(scopes.value, " "))
  }

  /** The order is part of the request: the same fields in another order are not the request posted. */
  lemma ReorderedFormRejected(clientId: string, clientSecret: string, userPoolId: string, region: string)
    ensures !IsTokenRequestFor(TokenRequest(TokenUrl(userPoolId, region), [FormContentType],
                                            [("client_secret", clientSecret), ("client_id", clientId),
                                             ("grant_type", "client_credentials")]),
                               clientId, clientSecret, userPoolId, region, None)
  {
    var form := [("client_secret", clientSecret), ("client_id", clientId), ("grant_type", "client_credentials")];
    assert form[..3][0] != CredentialForm(clientId, clientSecret)[0];
  }

  /** Builds the request; the `data` dictionary gains `scope` in place when scopes were given. */
  method BuildTokenRequest(clientId: string, clientSecret: string, userPoolId: string, region: string,
                           scopes: Option<seq<string>>) returns (request: TokenRequest)
    ensures IsTokenRequestFor(request, clientId, clientSecret, userPoolId, region, scopes)
  {
    var domain := CognitoDomain(userPoolId, region);
    var headers := [FormContentType];
    var data := CredentialForm(clientId, clientSecret);
    if scopes.Some? && scopes.value != [] {
      data := data + [("scope", Join(scopes.value, " "))];
    }
    request := TokenRequest(domain + "/oauth2/token", headers, data);
    var extra := data[3..];
    FormShape(data, extra);
    CredentialFields(clientId, clientSecret, extra);
  }

  lemma FormShape(data: seq<(string, string)>, extra: seq<(string, string)>)
    requires |data| >= 3 && extra == data[3..]
    ensures data == [data[0]] + ([data[1]] + ([data[2]] + extra))
  {
  }

  /** The three credential fields come first, so any `scope` fields after them do not shadow them. */
  lemma CredentialFields(clientId: string, clientSecret: string, extra: seq<(string, string)>)
    ensures var form := [("grant_type", "client_credentials")] + ([("client_id", clientId)] + ([("client_secret", clientSecret)] + extra));
            && FormValue(form, "grant_type") == Some("client_credentials")
            && FormValue(form, "client_id") == Some(clientId)
            && FormValue(form, "client_secret") == Some(clientSecret)
            && FormValue(form, "scope") == FormValue(extra, "scope")
  {
    var tail2 := [("client_secret", clientSecret)] + extra;
    var tail1 := [("client_id", clientId)] + tail2;
    FormValueHead("grant_type", "client_credentials", tail1);
    FormValueSkip("grant_type", "client_credentials", tail1, "client_id");
    FormValueHead("client_id", clientId, tail2);
    FormValueSkip("grant_type", "client_credentials", tail1, "client_secret");
    FormValueSkip("client_id", clientId, tail2, "client_secret");
    FormValueHead("client_secret", clientSecret, extra);
    FormValueSkip("grant_type", "client_credentials", tail1, "scope");
    FormValueSkip("client_id", clientId, tail2, "scope");
    FormValueSkip("client_secret", clientSecret, extra, "scope");
  }

  lemma FormValueHead(k: string, v: string, rest: seq<(string, string)>)
    ensures FormValue([(k, v)] + rest, k) == Some(v)
  {
  }

  lemma FormValueSkip(k: string, v: string, rest: seq<(string, string)>, key: string)
    requires k != key
    ensures FormValue([(k, v)] + rest, key) == FormValue(rest, key)
  {
    assert ([(k, v)] + rest)[1..] == rest;
  }

  /**
   * `generate_token`: `post` stands for the request, the status check and the JSON decoding;
   * any failure of these becomes `ValueError` with the `Cannot obtain token: ` prefix.
   */
  method GenerateToken(clientId: string, clientSecret: string, userPoolId: string, region: string,
                       scopes: Option<seq<string>>, post: TokenRequest -> Result<Json, string>)
    returns (r: Result<Json, Exception>)
    ensures r.Err? ==> r.error.ValueError? && TokenErrorPrefix <= r.error.message
    ensures exists request: TokenRequest ::
              && IsTokenRequestFor(request, clientId, clientSecret, userPoolId, region, scopes)
              && r == match post(request)
                      case Ok(tokenData) => Ok(tokenData)
                      case Err(e) => Err(ValueError(TokenErrorPrefix + e))
  {
    var request := BuildTokenRequest(clientId, clientSecret, userPoolId, region, scopes);
    match post(request) {
      case Ok(tokenData) => r := Ok(tokenData);
      case Err(e) => r := Err(ValueError(TokenErrorPrefix + e));
    }
  }

  /**
   * Scope names without spaces survive the round trip: the requested `scope` field splits back
   * into the requested names, and a token whose `scope` claim carries that field grants the
   * auth server exactly those scopes.
   */
  lemma RequestedScopesRoundTrip(scopes: seq<string>, claims: CognitoValidation.Claims)
    requires scopes != []
    requires forall k :: 0 <= k < |scopes| ==> scopes[k] != "" && NoSpace(scopes[k])
    requires "scope" in claims && claims["scope"] == JStr(Join(scopes, " "))
    ensures WhitespaceSplit(Join(scopes, " ")) == scopes
    ensures CognitoValidation.ScopesOfClaims(claims) == Ok(scopes)
  {
    WhitespaceSplitJoin(scopes);
    CognitoValidation.ScopeClaimRoundTrip(claims, scopes);
  }
}
