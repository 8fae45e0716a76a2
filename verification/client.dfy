/**
 * The exported API as one surface: every signed operation, the request each builds,
 * and how a network exchange for that request becomes the operation's result.
 */
module Client {
  import opened Wrappers
  import opened JsObjects
  import opened Environment
  import opened Transport
  import opened Paths
  import opened Signer
  import opened Members
  import opened Orders
  import opened OAuth

  /** One call of an exported operation that signs with the loyalty credentials. */
  datatype SignedCall =
    | CreateMember(phone: JsValue, optional: Option<Props<JsValue>>)
    | RetrieveBalance(spendgoId: string)
    | RetrieveRewardsByStore(spendgoId: string, storeCode: string)
    | PostOrder(status: OrderStatus, spendgoId: string, vendor: JsValue, orderId: JsValue, details: OrderDetails)

  /** The API path a signed call targets. */
  function CallPath(c: SignedCall): string {
    match c
    case CreateMember(_, _) => MemberPath
    case RetrieveBalance(id) => BalancePath(id)
    case RetrieveRewardsByStore(id, store) => RewardsPath(id, store)
    case PostOrder(_, id, _, _, _) => OrdersPath(id)
  }

  function BuildSigned(cfg: Config, prims: Primitives, c: SignedCall): RequestConfig {
    match c
    case CreateMember(phone, optional) => ServerCreateMember(cfg, prims, phone, optional)
    case RetrieveBalance(id) => ServerRetrieveBalance(cfg, prims, id)
    case RetrieveRewardsByStore(id, store) => ServerRetrieveRewardsByStore(cfg, prims, id, store)
    case PostOrder(status, id, vendor, orderId, d) => OrderRequest(cfg, prims, status, id, vendor, orderId, d)
  }

  /** Every signed operation, for every argument, takes the loyalty branch of the
      credential dispatch (never the empty-credential fallback), sends the loyalty key, and
      signs exactly the path and body it sends; reads send no body and are signed over the
      path alone. */
  lemma EverySignedCallUsesLoyaltyCredentials(cfg: Config, prims: Primitives, c: SignedCall)
    ensures StartsWith(CallPath(c), LoyaltyPrefix)
    ensures SignedAsSent(cfg, prims, BuildSigned(cfg, prims, c), CallPath(c))
    ensures Get(BuildSigned(cfg, prims, c).headers, KeyHeader) == Some(cfg.apiKey)
    ensures EffectiveMethod(BuildSigned(cfg, prims, c)) == POST <==> (c.CreateMember? || c.PostOrder?)
    ensures EffectiveMethod(BuildSigned(cfg, prims, c)) == GET ==> Payload(BuildSigned(cfg, prims, c)) == ""
  {
    match c
    case CreateMember(_, _) =>
      TemplatesUseLoyaltyPrefix("", "");
    case RetrieveBalance(id) =>
      TemplatesUseLoyaltyPrefix(id, "");
    case RetrieveRewardsByStore(id, store) =>
      TemplatesUseLoyaltyPrefix(id, store);
    case PostOrder(status, id, vendor, orderId, d) =>
      TemplatesUseLoyaltyPrefix(id, "");
      OrderRequestContents(cfg, prims, status, id, vendor, orderId, d);
  }

  /** Issue `r` over `network` and normalise what comes back (with transport failures
      surfaced as such). */
  function Perform(r: RequestConfig, network: RequestConfig -> Exchange): Result<Reply, RequestError> {
    AxiosRequest(Settle(network(r)))
  }

  /** The same, with the catch branch of `axiosRequest` as written. */
  function PerformAsWritten(r: RequestConfig, network: RequestConfig -> Exchange): Result<Reply, RequestError> {
    AxiosRequestAsWritten(Settle(network(r)))
  }

  /** Creating a member from a phone number alone POSTs `{customer: {phone}}` to
      /loyalty/accounts, signed over that exact body. */
  lemma CreateMemberWithPhoneOnly(cfg: Config, prims: Primitives)
    ensures var r := BuildSigned(cfg, prims, CreateMember(JsString("4155551234"), None));
      && r.verb == Some(POST)
      && r.url == cfg.url + "/loyalty/accounts"
      && r.data == Some(prims.stringify(JsObject([("customer", JsObject([("phone", JsString("4155551234"))]))])))
      && LoyaltySigned(cfg, prims, r.headers, "/loyalty/accounts", r.data.value)
  {
    var phone := JsString("4155551234");
    assert Customer(phone, None) == [("phone", phone)];
  }

  /** The rewards lookup GETs the member's rewards path with the store as query, signed over
      that path alone. */
  lemma RewardsByStoreRequest(cfg: Config, prims: Primitives)
    ensures var r := BuildSigned(cfg, prims, RetrieveRewardsByStore("496630", "999999"));
      && r.verb == Some(GET)
      && r.url == cfg.url + "/loyalty/accounts/496630/rewards?store=999999"
      && r.data == None
      && LoyaltySigned(cfg, prims, r.headers, "/loyalty/accounts/496630/rewards?store=999999", "")
  {
    var path := RewardsPath("496630", "999999");
    assert path == "/loyalty/accounts/496630/rewards?store=999999";
    assert path + "" == path;
  }

  /** The token exchange is a form-encoded POST carrying the authorization-code grant, with no
      signing headers. */
  lemma TokenExchangeRequest(cfg: Config, prims: Primitives)
    ensures var r := OauthExchangeForToken(cfg, prims, "abc123");
      && r.verb == Some(POST)
      && r.url == cfg.oauthUrl + "/oauth2/v1/token"
      && Get(r.headers, "content-type") == Some("application/x-www-form-urlencoded")
      && Unsigned(r)
      && r.data == Some(prims.formEncode([("grant_type", "authorization_code"), ("client_id", cfg.oauthApiKey),
                                          ("client_secret", cfg.oauthApiSecret),
                                          ("redirect_uri", cfg.redirectUri), ("code", "abc123")]))
  {
  }

  /** A provider error is returned as `{status, result}`, not thrown, both as written and
      with the corrected mapping. */
  lemma ProviderErrorIsReturned(cfg: Config, prims: Primitives, network: RequestConfig -> Exchange)
    requires network(BuildSigned(cfg, prims, RetrieveBalance("0")))
          == Received(Response(400, JsObject([("code", JsNumber(4003.0)),
                                              ("details", JsString("Invalid user account id: 0"))])))
    ensures Perform(BuildSigned(cfg, prims, RetrieveBalance("0")), network)
         == Success(Reply(400, JsObject([("code", JsNumber(4003.0)),
                                         ("details", JsString("Invalid user account id: 0"))])))
    ensures PerformAsWritten(BuildSigned(cfg, prims, RetrieveBalance("0")), network)
         == Success(Reply(400, JsObject([("code", JsNumber(4003.0)),
                                         ("details", JsString("Invalid user account id: 0"))])))
  {
    ResponsesPassThrough(Response(400, JsObject([("code", JsNumber(4003.0)),
                                                 ("details", JsString("Invalid user account id: 0"))])));
  }

  /** When the network yields no response, the operation fails with the transport's cause,
      distinguishable from any `{status, result}`; as written it fails with a TypeError that
      does not carry the cause. */
  lemma NoResponseIsATransportError(r: RequestConfig, network: RequestConfig -> Exchange)
    requires network(r).NoResponse?
    ensures Perform(r, network) == Failure(TransportError(network(r).cause))
    ensures PerformAsWritten(r, network) == Failure(ResponseOfUndefined)
  {
  }
}
