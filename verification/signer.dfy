/**
 * `createHeaders`: choosing credentials by path prefix and signing `path + body`
 * with HMAC-SHA256 (RFC 2104, FIPS 180-4), base64-encoded as in section 4 of RFC 4648.
 */
module Signer {
  import opened Wrappers
  import opened JsObjects
  import opened Environment
  import opened Transport
  import opened Paths

  const LoyaltyPrefix := "/loyalty/accounts"
  const KeyHeader := "X-Class-Key"
  const SignatureHeader := "X-Class-Signature"
  const ContentTypeHeader := "Content-Type"
  const JsonContentType := "application/json"

  /** An API key and its base64-encoded shared secret. */
  datatype Credentials = Credentials(key: string, secret: string)

  /** The loyalty pair for loyalty paths; any other path falls through to empty strings
      (spendgo.js only logs an error there). */
  function SelectCredentials(cfg: Config, apiPath: string): Credentials {
    if StartsWith(apiPath, LoyaltyPrefix) then Credentials(cfg.apiKey, cfg.apiSecret)
    else Credentials("", "")
  }

  /** The signature of `message` under a base64-encoded secret. */
  function Signature(prims: Primitives, secret: string, message: string): string {
    prims.hmacSha256Base64(prims.decodeSecret(secret), message)
  }

  /** `createHeaders(apiPath, rawJson = '')`; `None` is an omitted `rawJson`. */
  function CreateHeaders(cfg: Config, prims: Primitives, apiPath: string, rawJson: Option<string>): (h: Props<string>)
    ensures Keys(h) == [KeyHeader, SignatureHeader, ContentTypeHeader]
    ensures Get(h, ContentTypeHeader) == Some(JsonContentType)
  {
    var body := rawJson.GetOr("");
    var c := SelectCredentials(cfg, apiPath);
    var h := [(KeyHeader, c.key), (SignatureHeader, Signature(prims, c.secret, apiPath + body)),
              (ContentTypeHeader, JsonContentType)];
    assert Keys(h) == [h[0].0, h[1].0, h[2].0];
    assert h[1..][1..] == h[2..];
    assert Get(h[2..], ContentTypeHeader) == Some(JsonContentType);
    h
  }

  /** `headers` carry the loyalty key and a signature of exactly `path + body` under the
      loyalty secret. */
  predicate LoyaltySigned(cfg: Config, prims: Primitives, headers: Props<string>, path: string, body: string) {
    && Get(headers, KeyHeader) == Some(cfg.apiKey)
    && Get(headers, SignatureHeader) == Some(Signature(prims, cfg.apiSecret, path + body))
  }

  /** A request to `cfg.url + path` whose headers sign exactly the path and the body it sends. */
  predicate SignedAsSent(cfg: Config, prims: Primitives, r: RequestConfig, path: string) {
    && r.url == cfg.url + path
    && LoyaltySigned(cfg, prims, r.headers, path, Payload(r))
    && Get(r.headers, ContentTypeHeader) == Some(JsonContentType)
  }

  /** A loyalty path picks the loyalty credentials, and with a non-empty configured key the
      loyalty key appears only for loyalty paths. */
  lemma CredentialDispatch(cfg: Config, prims: Primitives, apiPath: string, rawJson: Option<string>)
    ensures StartsWith(apiPath, LoyaltyPrefix) ==>
              LoyaltySigned(cfg, prims, CreateHeaders(cfg, prims, apiPath, rawJson), apiPath, rawJson.GetOr(""))
    ensures !StartsWith(apiPath, LoyaltyPrefix) ==>
              Get(CreateHeaders(cfg, prims, apiPath, rawJson), KeyHeader) == Some("")
              && Get(CreateHeaders(cfg, prims, apiPath, rawJson), SignatureHeader)
                 == Some(Signature(prims, "", apiPath + rawJson.GetOr("")))
    ensures cfg.apiKey != "" ==>
              (Get(CreateHeaders(cfg, prims, apiPath, rawJson), KeyHeader) == Some(cfg.apiKey)
               <==> StartsWith(apiPath, LoyaltyPrefix))
  {
    var h := CreateHeaders(cfg, prims, apiPath, rawJson);
    assert h[0].0 == KeyHeader && h[1].0 == SignatureHeader && h[2].0 == ContentTypeHeader;
    assert UniqueKeys(h);
    GetAt(h, 0);
    GetAt(h, 1);
  }

  /** Omitting the body signs the same as signing an empty body. */
  lemma OmittedBodyIsEmpty(cfg: Config, prims: Primitives, apiPath: string)
    ensures CreateHeaders(cfg, prims, apiPath, None) == CreateHeaders(cfg, prims, apiPath, Some(""))
  {
  }

  /** The signature depends on path and body only through their concatenation: any two
      splits of the same message on the same side of the prefix test sign identically. */
  lemma SignatureSeesOnlyConcatenation(cfg: Config, prims: Primitives, p1: string, b1: string, p2: string, b2: string)
    requires p1 + b1 == p2 + b2
    requires StartsWith(p1, LoyaltyPrefix) == StartsWith(p2, LoyaltyPrefix)
    ensures Get(CreateHeaders(cfg, prims, p1, Some(b1)), SignatureHeader)
         == Get(CreateHeaders(cfg, prims, p2, Some(b2)), SignatureHeader)
    ensures CreateHeaders(cfg, prims, p1, Some(b1)) == CreateHeaders(cfg, prims, p2, Some(b2))
  {
  }

  /** Every path template of a signed operation lies in the loyalty branch, whatever the
      member id or store code, so the empty-credential fallback is never taken by them. */
  lemma TemplatesUseLoyaltyPrefix(spendgoId: string, storeCode: string)
    ensures StartsWith(MemberPath, LoyaltyPrefix)
    ensures StartsWith(BalancePath(spendgoId), LoyaltyPrefix)
    ensures StartsWith(RewardsPath(spendgoId, storeCode), LoyaltyPrefix)
    ensures StartsWith(OrdersPath(spendgoId), LoyaltyPrefix)
  {
    assert StartsWith(AccountPrefix, LoyaltyPrefix);
    StartsWithExtend(AccountPrefix, LoyaltyPrefix, spendgoId);
    StartsWithExtend(AccountPrefix + spendgoId, LoyaltyPrefix, BalanceSuffix);
    StartsWithExtend(AccountPrefix + spendgoId, LoyaltyPrefix, OrdersSuffix);
    StartsWithExtend(AccountPrefix + spendgoId, LoyaltyPrefix, RewardsSegment);
    StartsWithExtend(AccountPrefix + spendgoId + RewardsSegment, LoyaltyPrefix, StoreQuery);
    StartsWithExtend(AccountPrefix + spendgoId + RewardsSegment + StoreQuery, LoyaltyPrefix, storeCode);
  }

  /** The OAuth endpoints are outside the loyalty branch; they are never signed. */
  lemma OAuthPathsAreNotLoyaltyPaths()
    ensures !StartsWith(TokenPath, LoyaltyPrefix)
    ensures !StartsWith(MemberProfilePath, LoyaltyPrefix)
  {
    assert TokenPath[1] != LoyaltyPrefix[1];
    assert MemberProfilePath[1] != LoyaltyPrefix[1];
  }

  /** The config of a signed POST: `{method: 'post', url, headers: createHeaders(path, jsonData),
      data: jsonData}` with `jsonData = JSON.stringify(payload)`. */
  function SignedPost(cfg: Config, prims: Primitives, path: string, payload: JsValue): (r: RequestConfig)
    ensures r.verb == Some(POST)
    ensures r.data == Some(prims.stringify(payload))
    ensures StartsWith(path, LoyaltyPrefix) ==> SignedAsSent(cfg, prims, r, path)
  {
    var jsonData := prims.stringify(payload);
    CredentialDispatch(cfg, prims, path, Some(jsonData));
    RequestConfig(Some(POST), cfg.url + path, CreateHeaders(cfg, prims, path, Some(jsonData)), Some(jsonData))
  }

  /** The config of a signed GET: no `data`, headers from `createHeaders(path)`;
      `namesMethod` tells whether the config spells out `method: 'get'`. */
  function SignedGet(cfg: Config, prims: Primitives, namesMethod: bool, path: string): (r: RequestConfig)
    ensures r.verb == (if namesMethod then Some(GET) else None)
    ensures EffectiveMethod(r) == GET
    ensures r.data == None
    ensures StartsWith(path, LoyaltyPrefix) ==> SignedAsSent(cfg, prims, r, path)
  {
    CredentialDispatch(cfg, prims, path, None);
    RequestConfig(if namesMethod then Some(GET) else None, cfg.url + path, CreateHeaders(cfg, prims, path, None), None)
  }
}
