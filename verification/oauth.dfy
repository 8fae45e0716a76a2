/**
 * The two OAuth 2.0 calls.  Neither is signed: the token request is the
 * authorization-code grant of section 4.1.3 of RFC 6749, form-encoded, and the
 * member request carries a bearer token as in section 2.1 of RFC 6750.
 */
module OAuth {
  import opened Wrappers
  import opened JsObjects
  import opened Environment
  import opened Transport
  import opened Paths
  import opened Signer

  const FormContentType := "application/x-www-form-urlencoded"
  const BearerPrefix := "Bearer "

  /** The object handed to `querystring.encode` for the token request. */
  function TokenForm(cfg: Config, authorizationCode: string): Props<string> {
    [ ("grant_type", "authorization_code"),
      ("client_id", cfg.oauthApiKey),
      ("client_secret", cfg.oauthApiSecret),
      ("redirect_uri", cfg.redirectUri),
      ("code", authorizationCode) ]
  }

  /** A request that carries neither loyalty signing header. */
  predicate Unsigned(r: RequestConfig) {
    !HasKey(r.headers, KeyHeader) && !HasKey(r.headers, SignatureHeader)
  }

  /** `oauthExchangeForToken(authorizationCode)`: POST /oauth2/v1/token on the OAuth host. */
  function OauthExchangeForToken(cfg: Config, prims: Primitives, authorizationCode: string): (r: RequestConfig)
    ensures r.verb == Some(POST)
    ensures r.url == cfg.oauthUrl + TokenPath
    ensures Keys(r.headers) == ["content-type"] && Get(r.headers, "content-type") == Some(FormContentType)
    ensures Unsigned(r)
    ensures r.data == Some(prims.formEncode(TokenForm(cfg, authorizationCode)))
  {
    var headers := [("content-type", FormContentType)];
    assert headers[1..] == [];
    assert Keys(headers) == ["content-type"];
    RequestConfig(Some(POST), cfg.oauthUrl + TokenPath, headers, Some(prims.formEncode(TokenForm(cfg, authorizationCode))))
  }

  /** The token form carries the authorization-code grant type, the client credentials, the
      redirect URI and the code, each once and nothing else. */
  lemma TokenFormFields(cfg: Config, authorizationCode: string)
    ensures var f := TokenForm(cfg, authorizationCode);
      && UniqueKeys(f) && |f| == 5
      && Get(f, "grant_type") == Some("authorization_code")
      && Get(f, "client_id") == Some(cfg.oauthApiKey)
      && Get(f, "client_secret") == Some(cfg.oauthApiSecret)
      && Get(f, "redirect_uri") == Some(cfg.redirectUri)
      && Get(f, "code") == Some(authorizationCode)
  {
    var f := TokenForm(cfg, authorizationCode);
    assert Keys(f) == ["grant_type", "client_id", "client_secret", "redirect_uri", "code"];
    assert UniqueKeys(f) by {
      forall i, j | 0 <= i < j < |f|
        ensures f[i].0 != f[j].0
      {
        assert f[i].0 == Keys(f)[i] && f[j].0 == Keys(f)[j];
      }
    }
    GetAt(f, 0); GetAt(f, 1); GetAt(f, 2); GetAt(f, 3); GetAt(f, 4);
  }

  /** The token of an `Authorization` header value of the form `Bearer <token>`. */
  function BearerToken(value: string): Option<string> {
    Between(value, BearerPrefix, "")
  }

  lemma BearerTokenInverse(value: string, token: string)
    ensures BearerToken(value) == Some(token) <==> value == BearerPrefix + token
  {
    BetweenInverse(value, BearerPrefix, token, "");
    assert BearerPrefix + token + "" == BearerPrefix + token;
  }

  /** `oauthRetrieveMember(accessToken)`: a GET (axios's default) on the OAuth host whose only
      header is the bearer token. */
  function OauthRetrieveMember(cfg: Config, accessToken: string): (r: RequestConfig)
    ensures r.verb == None && EffectiveMethod(r) == GET
    ensures r.url == cfg.oauthUrl + MemberProfilePath
    ensures r.data == None
    ensures Keys(r.headers) == ["Authorization"]
    ensures Get(r.headers, "Authorization").Some?
    ensures BearerToken(Get(r.headers, "Authorization").value) == Some(accessToken)
    ensures Unsigned(r)
  {
    var headers := [("Authorization", BearerPrefix + accessToken)];
    assert headers[1..] == [];
    assert Keys(headers) == ["Authorization"];
    BearerTokenInverse(BearerPrefix + accessToken, accessToken);
    RequestConfig(None, cfg.oauthUrl + MemberProfilePath, headers, None)
  }
}
