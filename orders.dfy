/**
 * `place_order` up to the point where the request goes out: the alias
 * lookups, the limit-price check, the query parameters and the fifteen-field
 * `order_data` record.
 */
module Orders {
  import opened Wrappers
  import opened Text
  import opened Aliases
  import opened Wire
  import opened Handshake

  /** The keyword arguments of `place_order`; the price is kept as the text the float prints as. */
  datatype OrderRequest = OrderRequest(
    segment: string,
    symbol: string,
    tt: string,
    product: string,
    order: string,
    qty: int,
    price: Option<string>,
    tag: Option<string>)

  /** The `ValueError` `place_order` raises before anything is sent. */
  datatype OrderError = LimitWithoutPrice

  const DefaultTag := "ORDER_CLI_NO_SDK"
  const FormContentType := "application/x-www-form-urlencoded"

  /**
   * The `order_data` record, one field per key: after-market flag, disclosed
   * quantity, exchange segment, market protection, product, portfolio flag,
   * price, order type, quantity, validity, trigger price, trading symbol,
   * transaction type, tag and order source.
   */
  datatype OrderData = OrderData(
    am: string, dq: string, es: string, mp: string, pc: string,
    pf: string, pr: string, pt: string, qt: string, rt: string,
    tp: string, ts: string, tt: string, ig: string, os: string)

  /** A form POST to the order endpoint; `jData` is the record (its JSON text is not modelled). */
  datatype OrderPost = OrderPost(url: string, headers: map<string, string>, query: map<string, string>, jData: OrderData)

  /** `tag or "ORDER_CLI_NO_SDK"`: a missing or empty tag gives the default. */
  function OrderTag(tag: Option<string>): (t: string)
    ensures t != ""
  {
    if tag.Some? && tag.value != "" then tag.value else DefaultTag
  }

  /** `order_type.upper() == 'L'`. */
  predicate IsLimitType(orderType: string) {
    Upper(orderType) == "L"
  }

  /** The case `place_order` refuses: a limit order, after alias lookup, without a price. */
  predicate LacksLimitPrice(req: OrderRequest) {
    IsLimitType(Normalize(OrderTypeMap, req.order)) && req.price.None?
  }

  /** The `order_data` literal built from the request. */
  function BuildOrderData(req: OrderRequest): (d: OrderData)
    ensures d.es == Normalize(SegmentMap, req.segment)
    ensures d.pc == Normalize(ProductMap, req.product)
    ensures d.pt == Normalize(OrderTypeMap, req.order)
    ensures d.ts == req.symbol && d.tt == req.tt
    ensures d.qt == IntString(req.qty) && DecimalValue(d.qt) == Some(req.qty)
    ensures req.price.Some? ==> d.pr == req.price.value
    ensures req.price.None? ==> d.pr == "0"
    ensures req.tag.Some? && req.tag.value != "" ==> d.ig == req.tag.value
    ensures req.tag.None? || req.tag == Some("") ==> d.ig == DefaultTag
    ensures d.am == "NO" && d.dq == "0" && d.mp == "0" && d.pf == "N"
    ensures d.rt == "DAY" && d.tp == "0" && d.os == "NEOTRADEAPI"
  {
    IntStringRoundTrip(req.qty);
    OrderData(
      am := "NO",
      dq := "0",
      es := Normalize(SegmentMap, req.segment),
      mp := "0",
      pc := Normalize(ProductMap, req.product),
      pf := "N",
      pr := if req.price.Some? then req.price.value else "0",
      pt := Normalize(OrderTypeMap, req.order),
      qt := IntString(req.qty),
      rt := "DAY",
      tp := "0",
      ts := req.symbol,
      tt := req.tt,
      ig := OrderTag(req.tag),
      os := "NEOTRADEAPI")
  }

  /** The headers of the order POST. */
  function OrderHeaders(session: EditSession): map<string, string> {
    map["Sid" := session.editSid, "Auth" := session.editToken, "Content-Type" := FormContentType]
  }

  /**
   * The order is sent with the edit session's sid and token and the form
   * content type; the consumer key and neo-fin-key are not sent again.
   */
  lemma OrderHeadersShape(session: EditSession)
    ensures var h := OrderHeaders(session);
      h.Keys == {"Sid", "Auth", "Content-Type"} &&
      h["Sid"] == session.editSid && h["Auth"] == session.editToken &&
      h["Content-Type"] == "application/x-www-form-urlencoded"
  {
  }

  /**
   * `place_order` up to sending: refuses a limit order without a price, and
   * otherwise builds the request, with the `sId` query parameter only when the
   * server id is non-empty.
   */
  method PlaceOrder(session: EditSession, req: OrderRequest) returns (r: Result<OrderPost, OrderError>)
    ensures r.Failure? <==> LacksLimitPrice(req)
    ensures r.Success? ==> r.value.url == session.baseUrl + "/" + PlaceOrderEndpoint
    ensures r.Success? ==> r.value.headers == OrderHeaders(session)
    ensures r.Success? ==> r.value.jData == BuildOrderData(req)
    ensures r.Success? ==> r.value.query == if session.serverId != "" then map["sId" := session.serverId] else map[]
  {
    var orderType := Normalize(OrderTypeMap, req.order);
    if IsLimitType(orderType) && req.price.None? {
      return Failure(LimitWithoutPrice);
    }
    var queryParams: map<string, string> := map[];
    if session.serverId != "" {
      queryParams := queryParams["sId" := session.serverId];
    }
    r := Success(OrderPost(session.baseUrl + "/" + PlaceOrderEndpoint, OrderHeaders(session), queryParams, BuildOrderData(req)));
  }

  /** The table maps exactly `Limit`, `L` and `l` to `L`, and nothing to `l`. */
  lemma LimitKeys()
    ensures forall alias :: alias in OrderTypeMap ==> OrderTypeMap[alias] != "l"
    ensures forall alias :: alias in OrderTypeMap ==>
      (OrderTypeMap[alias] == "L" <==> alias == "Limit" || alias == "L" || alias == "l")
  {
  }

  /** Exactly the aliases `Limit`, `L` and `l` make an order a limit order. */
  lemma LimitAliases(order: string)
    ensures IsLimitType(Normalize(OrderTypeMap, order)) <==> order == "Limit" || order == "L" || order == "l"
  {
    UpperIsL(Normalize(OrderTypeMap, order));
    if order in OrderTypeMap {
      LimitKeys();
    } else {
      assert "Limit" in OrderTypeMap && "L" in OrderTypeMap && "l" in OrderTypeMap;
    }
  }

  /** `place_order` refuses a request exactly when it names a limit order and gives no price. */
  lemma RejectedExactly(req: OrderRequest)
    ensures LacksLimitPrice(req) <==> (req.order == "Limit" || req.order == "L" || req.order == "l") && req.price.None?
  {
    LimitAliases(req.order);
  }

  /** A limit order that gets through always carries the caller's price, never the `"0"` placeholder. */
  lemma AcceptedLimitCarriesPrice(req: OrderRequest)
    requires !LacksLimitPrice(req)
    requires IsLimitType(BuildOrderData(req).pt)
    ensures req.price.Some? && BuildOrderData(req).pr == req.price.value
  {
  }

  /** The segment, product and order type sent are already normal forms: looking them up again changes nothing. */
  lemma OrderFieldsNormalised(req: OrderRequest)
    ensures var d := BuildOrderData(req);
      Normalize(SegmentMap, d.es) == d.es &&
      Normalize(ProductMap, d.pc) == d.pc &&
      Normalize(OrderTypeMap, d.pt) == d.pt
  {
    SegmentMapClosed();
    ProductMapClosed();
    OrderTypeMapClosed();
    NormalizeIdempotent(SegmentMap, req.segment);
    NormalizeIdempotent(ProductMap, req.product);
    NormalizeIdempotent(OrderTypeMap, req.order);
  }
}
