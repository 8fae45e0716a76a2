/**
 * The six order-lifecycle operations.  Each POSTs a full order snapshot to
 * /loyalty/accounts/{spendgo_id}/orders with `status` naming the target state;
 * `checkout` and `placed` send no `id`, the other four send the commerce order id.
 * No state is kept between calls: each builder is independent of every other.
 */
module Orders {
  import opened Wrappers
  import opened JsObjects
  import opened Environment
  import opened Transport
  import opened Paths
  import opened Signer

  datatype OrderStatus = Checkout | Placed | Billed | Voided | Completed | Refunded

  /** The literal sent as `status`. */
  function StatusName(s: OrderStatus): string {
    match s
    case Checkout => "checkout"
    case Placed => "placed"
    case Billed => "billed"
    case Voided => "voided"
    case Completed => "completed"
    case Refunded => "refunded"
  }

  /** Whether the builder for `s` takes an `orderId` and sends it as `id`. */
  predicate CarriesOrderId(s: OrderStatus) {
    !(s.Checkout? || s.Placed?)
  }

  /** The order arguments every builder passes through untouched:
      `orderSource`, `orderSubtotal`, `orderTotal`, `orderBasket`. */
  datatype OrderDetails = OrderDetails(source: JsValue, subtotal: JsValue, total: JsValue, basket: JsValue)

  /** The body of `orderCheckout` and `orderPlaced`. */
  function UnidentifiedBody(cfg: Config, status: string, storeCode: JsValue, d: OrderDetails): Props<JsValue> {
    [ ("status", JsString(status)),
      ("vendor", storeCode),
      ("brand", JsString(cfg.accountId)),
      ("source", d.source),
      ("subtotal", d.subtotal),
      ("total", d.total),
      ("basket", d.basket) ]
  }

  /** The body of `orderBilled`, `orderVoided`, `orderCompleted` and `orderRefunded`. */
  function IdentifiedBody(cfg: Config, status: string, storeCode: JsValue, orderId: JsValue, d: OrderDetails)
    : Props<JsValue>
  {
    [ ("status", JsString(status)),
      ("vendor", storeCode),
      ("brand", JsString(cfg.accountId)),
      ("id", orderId),
      ("source", d.source),
      ("subtotal", d.subtotal),
      ("total", d.total),
      ("basket", d.basket) ]
  }

  function OrderCheckout(cfg: Config, prims: Primitives, spendgoId: string, storeCode: JsValue, d: OrderDetails)
    : (r: RequestConfig)
    ensures r.verb == Some(POST)
    ensures r.data == Some(prims.stringify(JsObject(UnidentifiedBody(cfg, "checkout", storeCode, d))))
    ensures SignedAsSent(cfg, prims, r, OrdersPath(spendgoId))
  {
    TemplatesUseLoyaltyPrefix(spendgoId, "");
    SignedPost(cfg, prims, OrdersPath(spendgoId), JsObject(UnidentifiedBody(cfg, "checkout", storeCode, d)))
  }

  function OrderPlaced(cfg: Config, prims: Primitives, spendgoId: string, storeCode: JsValue, d: OrderDetails)
    : (r: RequestConfig)
    ensures r.verb == Some(POST)
    ensures r.data == Some(prims.stringify(JsObject(UnidentifiedBody(cfg, "placed", storeCode, d))))
    ensures SignedAsSent(cfg, prims, r, OrdersPath(spendgoId))
  {
    TemplatesUseLoyaltyPrefix(spendgoId, "");
    SignedPost(cfg, prims, OrdersPath(spendgoId), JsObject(UnidentifiedBody(cfg, "placed", storeCode, d)))
  }

  function OrderBilled(cfg: Config, prims: Primitives, spendgoId: string, storeCode: JsValue, orderId: JsValue,
                       d: OrderDetails): (r: RequestConfig)
    ensures r.verb == Some(POST)
    ensures r.data == Some(prims.stringify(JsObject(IdentifiedBody(cfg, "billed", storeCode, orderId, d))))
    ensures SignedAsSent(cfg, prims, r, OrdersPath(spendgoId))
  {
    TemplatesUseLoyaltyPrefix(spendgoId, "");
    SignedPost(cfg, prims, OrdersPath(spendgoId), JsObject(IdentifiedBody(cfg, "billed", storeCode, orderId, d)))
  }

  function OrderVoided(cfg: Config, prims: Primitives, spendgoId: string, storeCode: JsValue, orderId: JsValue,
                       d: OrderDetails): (r: RequestConfig)
    ensures r.verb == Some(POST)
    ensures r.data == Some(prims.stringify(JsObject(IdentifiedBody(cfg, "voided", storeCode, orderId, d))))
    ensures SignedAsSent(cfg, prims, r, OrdersPath(spendgoId))
  {
    TemplatesUseLoyaltyPrefix(spendgoId, "");
    SignedPost(cfg, prims, OrdersPath(spendgoId), JsObject(IdentifiedBody(cfg, "voided", storeCode, orderId, d)))
  }

  function OrderCompleted(cfg: Config, prims: Primitives, spendgoId: string, storeCode: JsValue, orderId: JsValue,
                          d: OrderDetails): (r: RequestConfig)
    ensures r.verb == Some(POST)
    ensures r.data == Some(prims.stringify(JsObject(IdentifiedBody(cfg, "completed", storeCode, orderId, d))))
    ensures SignedAsSent(cfg, prims, r, OrdersPath(spendgoId))
  {
    TemplatesUseLoyaltyPrefix(spendgoId, "");
    SignedPost(cfg, prims, OrdersPath(spendgoId), JsObject(IdentifiedBody(cfg, "completed", storeCode, orderId, d)))
  }

  function OrderRefunded(cfg: Config, prims: Primitives, spendgoId: string, storeCode: JsValue, orderId: JsValue,
                         d: OrderDetails): (r: RequestConfig)
    ensures r.verb == Some(POST)
    ensures r.data == Some(prims.stringify(JsObject(IdentifiedBody(cfg, "refunded", storeCode, orderId, d))))
    ensures SignedAsSent(cfg, prims, r, OrdersPath(spendgoId))
  {
    TemplatesUseLoyaltyPrefix(spendgoId, "");
    SignedPost(cfg, prims, OrdersPath(spendgoId), JsObject(IdentifiedBody(cfg, "refunded", storeCode, orderId, d)))
  }

  /** The exported order operation for `status`; `orderId` is ignored by the two builders
      that take none. */
  function OrderRequest(cfg: Config, prims: Primitives, status: OrderStatus, spendgoId: string, storeCode: JsValue,
                        orderId: JsValue, d: OrderDetails): RequestConfig
  {
    match status
    case Checkout => OrderCheckout(cfg, prims, spendgoId, storeCode, d)
    case Placed => OrderPlaced(cfg, prims, spendgoId, storeCode, d)
    case Billed => OrderBilled(cfg, prims, spendgoId, storeCode, orderId, d)
    case Voided => OrderVoided(cfg, prims, spendgoId, storeCode, orderId, d)
    case Completed => OrderCompleted(cfg, prims, spendgoId, storeCode, orderId, d)
    case Refunded => OrderRefunded(cfg, prims, spendgoId, storeCode, orderId, d)
  }

  /** The object the builder for `status` hands to `JSON.stringify`. */
  function OrderBody(cfg: Config, status: OrderStatus, storeCode: JsValue, orderId: JsValue, d: OrderDetails)
    : Props<JsValue>
  {
    if CarriesOrderId(status) then IdentifiedBody(cfg, StatusName(status), storeCode, orderId, d)
    else UnidentifiedBody(cfg, StatusName(status), storeCode, d)
  }

  /** What an order body for `status` must contain, stated property by property: the status
      literal, the pass-through fields, the brand, `id` exactly when the status carries one,
      and nothing else. */
  predicate DescribesOrder(body: Props<JsValue>, cfg: Config, status: OrderStatus, storeCode: JsValue,
                           orderId: JsValue, d: OrderDetails)
  {
    && UniqueKeys(body)
    && Get(body, "status") == Some(JsString(StatusName(status)))
    && Get(body, "vendor") == Some(storeCode)
    && Get(body, "brand") == Some(JsString(cfg.accountId))
    && Get(body, "source") == Some(d.source)
    && Get(body, "subtotal") == Some(d.subtotal)
    && Get(body, "total") == Some(d.total)
    && Get(body, "basket") == Some(d.basket)
    && (HasKey(body, "id") <==> CarriesOrderId(status))
    && (CarriesOrderId(status) ==> Get(body, "id") == Some(orderId))
    && |body| == (if CarriesOrderId(status) then 8 else 7)
  }

  /** The body without `id` describes a `checkout` or `placed` order. */
  lemma UnidentifiedBodyDescribes(cfg: Config, status: OrderStatus, storeCode: JsValue, orderId: JsValue,
                                  d: OrderDetails)
    requires !CarriesOrderId(status)
    ensures DescribesOrder(UnidentifiedBody(cfg, StatusName(status), storeCode, d), cfg, status, storeCode, orderId, d)
  {
    var b := UnidentifiedBody(cfg, StatusName(status), storeCode, d);
    assert Keys(b) == ["status", "vendor", "brand", "source", "subtotal", "total", "basket"];
    assert UniqueKeys(b) by {
      forall i, j | 0 <= i < j < |b|
        ensures b[i].0 != b[j].0
      {
        assert b[i].0 == Keys(b)[i] && b[j].0 == Keys(b)[j];
      }
    }
    forall i | 0 <= i < |b|
      ensures b[i].0 != "id"
    {
      assert |b[i].0| != 2;
    }
    GetAt(b, 0); GetAt(b, 1); GetAt(b, 2); GetAt(b, 3); GetAt(b, 4); GetAt(b, 5); GetAt(b, 6);
  }

  /** The body with `id` describes a `billed`, `voided`, `completed` or `refunded` order. */
  lemma IdentifiedBodyDescribes(cfg: Config, status: OrderStatus, storeCode: JsValue, orderId: JsValue,
                                d: OrderDetails)
    requires CarriesOrderId(status)
    ensures DescribesOrder(IdentifiedBody(cfg, StatusName(status), storeCode, orderId, d),
                           cfg, status, storeCode, orderId, d)
  {
    var b := IdentifiedBody(cfg, StatusName(status), storeCode, orderId, d);
    assert Keys(b) == ["status", "vendor", "brand", "id", "source", "subtotal", "total", "basket"];
    assert UniqueKeys(b) by {
      forall i, j | 0 <= i < j < |b|
        ensures b[i].0 != b[j].0
      {
        assert b[i].0 == Keys(b)[i] && b[j].0 == Keys(b)[j];
      }
    }
    GetAt(b, 0); GetAt(b, 1); GetAt(b, 2); GetAt(b, 3); GetAt(b, 4); GetAt(b, 5); GetAt(b, 6); GetAt(b, 7);
  }

  /** Every order operation POSTs to the orders path of the member, signs exactly the body
      it sends, and that body carries exactly the fields its status calls for. */
  lemma OrderRequestContents(cfg: Config, prims: Primitives, status: OrderStatus, spendgoId: string,
                             storeCode: JsValue, orderId: JsValue, d: OrderDetails)
    ensures var r := OrderRequest(cfg, prims, status, spendgoId, storeCode, orderId, d);
      && r.verb == Some(POST)
      && SignedAsSent(cfg, prims, r, OrdersPath(spendgoId))
      && r.data == Some(prims.stringify(JsObject(OrderBody(cfg, status, storeCode, orderId, d))))
      && DescribesOrder(OrderBody(cfg, status, storeCode, orderId, d), cfg, status, storeCode, orderId, d)
  {
    if CarriesOrderId(status) {
      IdentifiedBodyDescribes(cfg, status, storeCode, orderId, d);
    } else {
      UnidentifiedBodyDescribes(cfg, status, storeCode, orderId, d);
    }
  }

  /** Distinct statuses send distinct `status` literals. */
  lemma StatusNamesDistinct(s1: OrderStatus, s2: OrderStatus)
    ensures StatusName(s1) == StatusName(s2) <==> s1 == s2
  {
    if s1 != s2 {
      assert StatusName(s1)[..2] != StatusName(s2)[..2] || StatusName(s1)[2] != StatusName(s2)[2];
    }
  }

  /** Within each group the bodies differ only in `status`, which is their first property;
      the two groups differ only in the `id` property placed after `brand`. */
  lemma OrderBodiesDifferOnlyInStatusAndId(cfg: Config, s1: OrderStatus, s2: OrderStatus, storeCode: JsValue,
                                           orderId: JsValue, d: OrderDetails)
    ensures var b1 := OrderBody(cfg, s1, storeCode, orderId, d);
            var b2 := OrderBody(cfg, s2, storeCode, orderId, d);
      CarriesOrderId(s1) == CarriesOrderId(s2) ==> b1[1..] == b2[1..]
    ensures CarriesOrderId(s1) && !CarriesOrderId(s2) ==>
      var b1 := OrderBody(cfg, s1, storeCode, orderId, d);
      var b2 := OrderBody(cfg, s2, storeCode, orderId, d);
      b1[1..3] + b1[4..] == b2[1..] && b1[3] == ("id", orderId)
  {
    var b1 := OrderBody(cfg, s1, storeCode, orderId, d);
    var b2 := OrderBody(cfg, s2, storeCode, orderId, d);
    if CarriesOrderId(s1) == CarriesOrderId(s2) {
      assert b1[1..] == b2[1..];
    } else if CarriesOrderId(s1) {
      assert b1[1..3] + b1[4..] == b2[1..];
    }
  }
}
