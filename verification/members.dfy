/**
 * The member operations signed with the loyalty credentials: create (or resolve) a
 * member, read a balance, and list the rewards redeemable at a store.
 */
module Members {
  import opened Wrappers
  import opened JsObjects
  import opened Environment
  import opened Transport
  import opened Paths
  import opened Signer

  /** `{phone: phone, ...optionalObject}`; `None` is an `optionalObject` that is `undefined`
      or `null`, both of which spread nothing. */
  function Customer(phone: JsValue, optional: Option<Props<JsValue>>): Props<JsValue> {
    Assign([("phone", phone)], optional.GetOr([]))
  }

  /** `{customer: {phone, ...optionalObject}}` */
  function CreateMemberBody(phone: JsValue, optional: Option<Props<JsValue>>): JsValue {
    JsObject([("customer", JsObject(Customer(phone, optional)))])
  }

  /** The customer object keeps `phone` as its first property; a `phone` in the optional
      object overrides the positional value, and every other key comes from the optional
      object untouched. */
  lemma CustomerFields(phone: JsValue, optional: Option<Props<JsValue>>)
    requires optional.Some? ==> UniqueKeys(optional.value)
    ensures var c := Customer(phone, optional);
      && |c| >= 1 && c[0].0 == "phone"
      && UniqueKeys(c)
      && Get(c, "phone") == (if optional.Some? && HasKey(optional.value, "phone")
                             then Get(optional.value, "phone") else Some(phone))
      && forall k :: k != "phone" ==> Get(c, k) == Get(optional.GetOr([]), k)
  {
    var o := optional.GetOr([]);
    var c := Customer(phone, optional);
    AssignKeys([("phone", phone)], o);
    forall k
      ensures Get(c, k) == if HasKey(o, k) then Get(o, k) else Get([("phone", phone)], k)
    {
      AssignGet([("phone", phone)], o, k);
    }
    forall k | k != "phone"
      ensures Get(c, k) == Get(o, k)
    {
      if !HasKey(o, k) {
        GetDefined(o, k);
        var p: Props<JsValue> := [("phone", phone)];
        assert p[1..] == [];
        assert Get(p, k) == None;
      }
    }
  }

  /** `serverCreateMember(phone, optionalObject)`: POST /loyalty/accounts. */
  function ServerCreateMember(cfg: Config, prims: Primitives, phone: JsValue, optional: Option<Props<JsValue>>)
    : (r: RequestConfig)
    ensures r.verb == Some(POST)
    ensures r.data == Some(prims.stringify(CreateMemberBody(phone, optional)))
    ensures SignedAsSent(cfg, prims, r, MemberPath)
  {
    TemplatesUseLoyaltyPrefix("", "");
    SignedPost(cfg, prims, MemberPath, CreateMemberBody(phone, optional))
  }

  /** `serverRetrieveBalance(spendgo_id)`: a GET (axios's default, the config names no
      method) signed over the path alone. */
  function ServerRetrieveBalance(cfg: Config, prims: Primitives, spendgoId: string): (r: RequestConfig)
    ensures r.verb == None && EffectiveMethod(r) == GET
    ensures r.data == None
    ensures SignedAsSent(cfg, prims, r, BalancePath(spendgoId))
  {
    TemplatesUseLoyaltyPrefix(spendgoId, "");
    SignedGet(cfg, prims, false, BalancePath(spendgoId))
  }

  /** `serverRetrieveRewardsByStore(spendgo_id, store_code)`: a GET signed over the path
      including its `?store=` query. */
  function ServerRetrieveRewardsByStore(cfg: Config, prims: Primitives, spendgoId: string, storeCode: string)
    : (r: RequestConfig)
    ensures r.verb == Some(GET)
    ensures r.data == None
    ensures SignedAsSent(cfg, prims, r, RewardsPath(spendgoId, storeCode))
  {
    TemplatesUseLoyaltyPrefix(spendgoId, storeCode);
    SignedGet(cfg, prims, true, RewardsPath(spendgoId, storeCode))
  }
}
