/// The Stripe service (src/services/stripe.js). Stripe's own calls are inputs:
/// `Api` holds what each SDK call answers. What remains is the service's own
/// logic: the defaults of the checkout and payment-link requests, the
/// signature gate, the dispatch of webhook events onto the orders of the shop
/// (an abstract map from order id to status and meta data), and the status
/// labels of a checkout session.
module Stripe {
  import opened Values

  const SiteUrl := "https://hopebasketballquebec.com"
  const GenericDescription := "Inscription camp Hope Basketball"
  const Source := "hope-basketball-agent"

  /** `process.env.WOO_URL || 'https://hopebasketballquebec.com'`; an unset variable is "". */
  function BaseUrl(wooUrl: string): string {
    if wooUrl != "" then wooUrl else SiteUrl
  }

  function ConfirmedUrl(base: string, orderId: Value): string {
    base + "/inscription-confirmee/?order_id=" + ToString(orderId)
  }

  function CancelledUrl(base: string, orderId: Value): string {
    base + "/inscription-annulee/?order_id=" + ToString(orderId)
  }

  // ---------------------------------------------------------------------------
  // createCheckoutSession
  // ---------------------------------------------------------------------------

  /** The one line of a checkout session: its product data, the price the
      amount in cents is computed from, and the quantity. */
  datatype SessionLine = SessionLine(name: Value, description: string, metadata: map<string, Value>,
                                     price: Value, quantity: Value)

  /** The parts of the `checkout.sessions.create` request the service computes
      (card payment, mode, locale, currency and tax settings are fixed). */
  datatype SessionRequest = SessionRequest(customerEmail: Value, line: SessionLine,
                                           metadata: map<string, Value>, successUrl: Value, cancelUrl: Value)

  datatype CreatedSession = CreatedSession(id: Value, url: Value)

  datatype CheckoutResult = CheckoutOpened(checkoutUrl: Value, sessionId: Value, orderId: Value)
                          | CheckoutFailed(error: string)

  function CheckoutDescription(childName: Value): string {
    if Truthy(childName) then "Inscription de " + ToString(childName) else GenericDescription
  }

  /** The request `createCheckoutSession(params)` sends. */
  function SessionRequestFor(params: map<string, Value>, wooUrl: string): SessionRequest {
    var orderId := Get(params, "order_id");
    var childName := Get(params, "child_name");
    var base := BaseUrl(wooUrl);
    var quantity := if Get(params, "quantity").Undefined? then Num(1) else Get(params, "quantity");
    SessionRequest(
      Get(params, "customer_email"),
      SessionLine(Get(params, "camp_name"), CheckoutDescription(childName),
                  map["order_id" := Str(ToString(orderId)), "child_name" := Or(childName, Str(""))],
                  Get(params, "price"), quantity),
      map["order_id" := Str(ToString(orderId)), "source" := Str(Source),
          "customer_name" := Or(Get(params, "customer_name"), Str("")),
          "child_name" := Or(childName, Str(""))],
      Or(Get(params, "success_url"), Str(ConfirmedUrl(base, orderId))),
      Or(Get(params, "cancel_url"), Str(CancelledUrl(base, orderId))))
  }

  /** `createCheckoutSession(params)` given what Stripe answers to the request. */
  function CreateCheckoutSession(params: map<string, Value>, wooUrl: string,
                                 create: SessionRequest -> Result<CreatedSession>): (r: CheckoutResult)
    ensures create(SessionRequestFor(params, wooUrl)).Err? <==> r.CheckoutFailed?
    ensures r.CheckoutOpened? ==> r.orderId == Get(params, "order_id")
  {
    match create(SessionRequestFor(params, wooUrl))
    case Err(e) => CheckoutFailed(e)
    case Ok(s) => CheckoutOpened(s.url, s.id, Get(params, "order_id"))
  }

  /** Without explicit URLs the session returns to the confirmation or the
      cancellation page of the shop, on the configured site or the default
      one, and the order number in either URL reads back as the order's. */
  lemma CheckoutDefaultUrls(params: map<string, Value>, wooUrl: string, n: int)
    requires !Truthy(Get(params, "success_url")) && !Truthy(Get(params, "cancel_url"))
    requires Get(params, "order_id") == Num(n)
    ensures var req := SessionRequestFor(params, wooUrl);
      var base := if wooUrl == "" then SiteUrl else wooUrl;
      && req.successUrl == Str(base + "/inscription-confirmee/?order_id=" + Decimal(n))
      && req.cancelUrl == Str(base + "/inscription-annulee/?order_id=" + Decimal(n))
      && req.successUrl != req.cancelUrl
      && ParseInt(req.successUrl.s[|req.successUrl.s| - |Decimal(n)|..]) == Some(n)
  {
    var req := SessionRequestFor(params, wooUrl);
    var base := BaseUrl(wooUrl);
    var ok := base + "/inscription-confirmee/?order_id=";
    var ko := base + "/inscription-annulee/?order_id=";
    assert ok[|base| + 13] == 'c' && ko[|base| + 13] == 'a';
    assert (ok + Decimal(n))[|base| + 13] != (ko + Decimal(n))[|base| + 13];
    assert req.successUrl.s[|req.successUrl.s| - |Decimal(n)|..] == Decimal(n);
    ParseIntDecimal(n);
  }

  /** The product description names the child when there is one. */
  lemma CheckoutDescriptionNamesChild(params: map<string, Value>, wooUrl: string)
    ensures var d := SessionRequestFor(params, wooUrl).line.description;
      Truthy(Get(params, "child_name")) ==> d == "Inscription de " + ToString(Get(params, "child_name"))
    ensures !Truthy(Get(params, "child_name")) ==>
      SessionRequestFor(params, wooUrl).line.description == GenericDescription
    ensures Get(params, "quantity").Undefined? ==> SessionRequestFor(params, wooUrl).line.quantity == Num(1)
  {
  }

  // ---------------------------------------------------------------------------
  // createPaymentLink
  // ---------------------------------------------------------------------------

  datatype ProductRequest = ProductRequest(name: Value, description: string, metadata: map<string, Value>)

  /** The price to create for a product: `price` is the amount in dollars the
      service converts to cents, in Canadian dollars. */
  datatype PriceRequest = PriceRequest(product: Value, price: Value)

  datatype LinkRequest = LinkRequest(price: Value, metadata: map<string, Value>, redirectUrl: string)

  datatype CreatedLink = CreatedLink(id: Value, url: Value)

  datatype PaymentLinkResult = PaymentLinkCreated(paymentUrl: Value, linkId: Value, orderId: Value)
                             | PaymentLinkFailed(error: string)

  /** What Stripe answers to the calls the service makes. */
  datatype Api = Api(
    createProduct: ProductRequest -> Result<Value>,   // products.create, answers the product id
    createPrice: PriceRequest -> Result<Value>,       // prices.create, answers the price id
    createLink: LinkRequest -> Result<CreatedLink>,   // paymentLinks.create
    createSession: SessionRequest -> Result<CreatedSession>,  // checkout.sessions.create
    retrieveSession: Value -> Result<CheckoutSession>)        // checkout.sessions.retrieve

  function LinkProduct(params: map<string, Value>): ProductRequest {
    var camp, child := Get(params, "camp_name"), Get(params, "child_name");
    ProductRequest(
      camp,
      if Truthy(child) then "Inscription de " + ToString(child) + " — " + ToString(camp)
      else "Inscription — " + ToString(camp),
      map["order_id" := Str(ToString(Get(params, "order_id"))), "source" := Str(Source)])
  }

  function LinkRequestFor(params: map<string, Value>, wooUrl: string, price: Value): LinkRequest {
    var orderId := Get(params, "order_id");
    LinkRequest(price,
                map["order_id" := Str(ToString(orderId)), "child_name" := Or(Get(params, "child_name"), Str(""))],
                ConfirmedUrl(BaseUrl(wooUrl), orderId))
  }

  /** `createPaymentLink(params)`: a product, then its price, then the link;
      the first call that fails ends it with that call's error. */
  function CreatePaymentLink(params: map<string, Value>, wooUrl: string, api: Api): (r: PaymentLinkResult)
    ensures api.createProduct(LinkProduct(params)).Err? ==> r == PaymentLinkFailed(api.createProduct(LinkProduct(params)).error)
    ensures r.PaymentLinkCreated? ==> r.orderId == Get(params, "order_id")
  {
    match api.createProduct(LinkProduct(params))
    case Err(e) => PaymentLinkFailed(e)
    case Ok(productId) =>
      match api.createPrice(PriceRequest(productId, Get(params, "price")))
      case Err(e) => PaymentLinkFailed(e)
      case Ok(priceId) =>
        match api.createLink(LinkRequestFor(params, wooUrl, priceId))
        case Err(e) => PaymentLinkFailed(e)
        case Ok(link) => PaymentLinkCreated(link.url, link.id, Get(params, "order_id"))
  }

  /** A created link redirects to the confirmation page of the order it was made for. */
  lemma PaymentLinkRedirect(params: map<string, Value>, wooUrl: string, api: Api, n: int)
    requires Get(params, "order_id") == Num(n)
    requires CreatePaymentLink(params, wooUrl, api).PaymentLinkCreated?
    ensures var productId := api.createProduct(LinkProduct(params)).value;
      var priceId := api.createPrice(PriceRequest(productId, Get(params, "price"))).value;
      var req := LinkRequestFor(params, wooUrl, priceId);
      && api.createLink(req).Ok?
      && req.redirectUrl == BaseUrl(wooUrl) + "/inscription-confirmee/?order_id=" + Decimal(n)
      && req.metadata["order_id"] == Str(Decimal(n))
      && ParseInt(req.redirectUrl[|req.redirectUrl| - |Decimal(n)|..]) == Some(n)
  {
    var productId := api.createProduct(LinkProduct(params)).value;
    var priceId := api.createPrice(PriceRequest(productId, Get(params, "price"))).value;
    var req := LinkRequestFor(params, wooUrl, priceId);
    assert req.redirectUrl[|req.redirectUrl| - |Decimal(n)|..] == Decimal(n);
    ParseIntDecimal(n);
  }

  // ---------------------------------------------------------------------------
  // Webhooks
  // ---------------------------------------------------------------------------

  /** The `data.object` of an event: a checkout session or a payment intent. */
  datatype EventObject = EventObject(id: Value, paymentIntent: Value, metadata: Option<map<string, Value>>)

  datatype Event = Event(kind: string, obj: EventObject)

  /** `verifyWebhook`: `{success: true, event}` or `{success: false, error}`. */
  datatype Verification = Verified(event: Event) | Rejected(error: string)

  /** `verifyWebhook(rawBody, signature)` given what `webhooks.constructEvent`
      does with the body, the signature and the secret: it never throws. */
  function VerifyWebhook(constructed: Result<Event>): (r: Verification)
    ensures constructed.Err? <==> r.Rejected?
    ensures r.Verified? ==> r.event == constructed.value
    ensures r.Rejected? ==> r.error == constructed.error
  {
    match constructed
    case Err(e) => Rejected(e)
    case Ok(e) => Verified(e)
  }

  /** An order of the shop as the webhook sees it. */
  datatype StoredOrder = StoredOrder(status: string, meta: map<string, Value>)

  type Orders = map<string, StoredOrder>

  /** What the shop answers to `PUT orders/<id>`. */
  datatype PutReply = PutAccepted | PutRejected(error: string)

  /** The result `handleWebhookEvent` returns, or `Threw` when it rejects. */
  datatype EventResult =
    | OrderUpdated(orderId: Value)
    | NoOrderId
    | PaymentLogged
    | PaymentFailedLogged
    | Ignored
    | UpdateFailed(error: string)
    | Threw(error: string)

  datatype Handled = Handled(result: EventResult, orders: Orders)

  /** The `success` field of a returned result. */
  predicate Succeeded(r: EventResult) {
    !r.UpdateFailed? && !r.Threw?
  }

  /** `metadata?.order_id` */
  function OrderIdOf(o: EventObject): Value {
    if o.metadata.Some? then Get(o.metadata.value, "order_id") else Undefined
  }

  /** The shop accepts an update only for an order it holds: an accepted
      `PUT orders/<id>` for the event's order id names an order of `orders`.
      An unknown id is answered with an error (`PutRejected`). */
  predicate KnownOrderUpdate(e: Event, orders: Orders, put: PutReply) {
    put.PutAccepted? && Truthy(OrderIdOf(e.obj)) ==> ToString(OrderIdOf(e.obj)) in orders
  }

  /** An accepted `PUT orders/<id>`: the new status, and meta entries set by key. */
  function Put(orders: Orders, id: string, status: string, meta: map<string, Value>): (r: Orders)
    requires id in orders
    ensures r.Keys == orders.Keys
    ensures r[id].status == status && forall k :: k in meta ==> k in r[id].meta && r[id].meta[k] == meta[k]
    ensures r[id].meta.Keys == orders[id].meta.Keys + meta.Keys
    ensures forall k :: k in orders[id].meta && k !in meta ==> r[id].meta[k] == orders[id].meta[k]
    ensures forall k :: k in orders && k != id ==> r[k] == orders[k]
  {
    orders[id := StoredOrder(status, orders[id].meta + meta)]
  }

  /** `handleWebhookEvent(event, wooService)`; `put` is the shop's answer to the
      one order update the event may cause. */
  function HandleWebhookEvent(e: Event, orders: Orders, put: PutReply): (h: Handled)
    requires KnownOrderUpdate(e, orders, put)
    ensures h.orders.Keys == orders.Keys
    ensures h.result.UpdateFailed? || h.result.Threw? ==> h.orders == orders
    ensures e.kind !in {"checkout.session.completed", "payment_intent.payment_failed"} ==>
      h.orders == orders && Succeeded(h.result)
  {
    var orderId := OrderIdOf(e.obj);
    if e.kind == "checkout.session.completed" then
      if Truthy(orderId) then
        match put
        case PutAccepted =>
          Handled(OrderUpdated(orderId),
                  Put(orders, ToString(orderId), "processing",
                      map["stripe_session_id" := e.obj.id, "stripe_payment_intent" := e.obj.paymentIntent]))
        case PutRejected(m) => Handled(UpdateFailed(m), orders)
      else Handled(NoOrderId, orders)
    else if e.kind == "payment_intent.succeeded" then Handled(PaymentLogged, orders)
    else if e.kind == "payment_intent.payment_failed" then
      if Truthy(orderId) then
        match put
        case PutAccepted => Handled(PaymentFailedLogged, Put(orders, ToString(orderId), "failed", map[]))
        case PutRejected(m) => Handled(Threw(m), orders)
      else Handled(PaymentFailedLogged, orders)
    else Handled(Ignored, orders)
  }

  /** A completed checkout for an order moves that order, and only that one, to "processing". */
  lemma CheckoutCompletedMarksProcessing(e: Event, orders: Orders)
    requires e.kind == "checkout.session.completed" && Truthy(OrderIdOf(e.obj))
    requires ToString(OrderIdOf(e.obj)) in orders
    ensures var h := HandleWebhookEvent(e, orders, PutAccepted);
      var id := ToString(OrderIdOf(e.obj));
      && h.result == OrderUpdated(OrderIdOf(e.obj)) && Succeeded(h.result)
      && id in h.orders && h.orders[id].status == "processing"
      && h.orders[id].meta["stripe_session_id"] == e.obj.id
      && forall k :: k in orders && k != id ==> k in h.orders && h.orders[k] == orders[k]
  {
  }

  /** Replaying a completed checkout changes nothing more. */
  lemma CheckoutCompletedIdempotent(e: Event, orders: Orders)
    requires e.kind == "checkout.session.completed" && KnownOrderUpdate(e, orders, PutAccepted)
    ensures var once := HandleWebhookEvent(e, orders, PutAccepted).orders;
      HandleWebhookEvent(e, once, PutAccepted).orders == once
  {
    var orderId := OrderIdOf(e.obj);
    if Truthy(orderId) {
      var id := ToString(orderId);
      var meta := map["stripe_session_id" := e.obj.id, "stripe_payment_intent" := e.obj.paymentIntent];
      var once := Put(orders, id, "processing", meta);
      assert once[id].meta + meta == once[id].meta;
      assert Put(once, id, "processing", meta) == once;
    }
  }

  /** The replay sets the status again: an order that has moved on to
      "completed" since is put back to "processing". */
  lemma CheckoutReplayResetsStatus(e: Event, orders: Orders)
    requires e.kind == "checkout.session.completed" && Truthy(OrderIdOf(e.obj))
    requires ToString(OrderIdOf(e.obj)) in orders
    requires orders[ToString(OrderIdOf(e.obj))].status == "completed"
    ensures HandleWebhookEvent(e, orders, PutAccepted).orders[ToString(OrderIdOf(e.obj))].status == "processing"
  {
  }

  /** Without an order id a completed checkout touches no order; a failing
      update is reported as a result, not thrown. */
  lemma CheckoutCompletedWithoutOrder(e: Event, orders: Orders, put: PutReply)
    requires e.kind == "checkout.session.completed" && KnownOrderUpdate(e, orders, put)
    ensures !Truthy(OrderIdOf(e.obj)) ==> HandleWebhookEvent(e, orders, put) == Handled(NoOrderId, orders)
    ensures Truthy(OrderIdOf(e.obj)) && put.PutRejected? ==>
      HandleWebhookEvent(e, orders, put) == Handled(UpdateFailed(put.error), orders)
  {
  }

  /** A failed payment for an order moves that order to "failed"; a failing
      update there is thrown out of the handler. */
  lemma PaymentFailedMarksFailed(e: Event, orders: Orders, put: PutReply)
    requires e.kind == "payment_intent.payment_failed" && KnownOrderUpdate(e, orders, put)
    ensures var h := HandleWebhookEvent(e, orders, put);
      var id := ToString(OrderIdOf(e.obj));
      && (Truthy(OrderIdOf(e.obj)) && put.PutAccepted? ==>
            h.result == PaymentFailedLogged && h.orders[id].status == "failed"
            && h.orders[id].meta == orders[id].meta
            && forall k :: k in orders && k != id ==> h.orders[k] == orders[k])
      && (Truthy(OrderIdOf(e.obj)) && put.PutRejected? ==> h.result == Threw(put.error))
      && (!Truthy(OrderIdOf(e.obj)) ==> h == Handled(PaymentFailedLogged, orders))
  {
  }

  /** A succeeded payment intent is logged and every other event kind is
      accepted and ignored; neither touches an order. */
  lemma OtherEventsIgnored(e: Event, orders: Orders, put: PutReply)
    requires e.kind != "checkout.session.completed" && e.kind != "payment_intent.payment_failed"
    requires KnownOrderUpdate(e, orders, put)
    ensures HandleWebhookEvent(e, orders, put) ==
      Handled(if e.kind == "payment_intent.succeeded" then PaymentLogged else Ignored, orders)
  {
  }

  // ---------------------------------------------------------------------------
  // getPaymentStatus
  // ---------------------------------------------------------------------------

  datatype CheckoutSession = CheckoutSession(id: Value, paymentStatus: Value, status: Value, currency: Value,
                                             customerEmail: Option<Value>, metadata: Option<map<string, Value>>)

  const SessionStatusLabels: map<string, string> := map[
    "complete" := "Paiement complété",
    "expired" := "Session expirée",
    "open" := "En attente de paiement"]

  /** `statusMap[session.status] || session.status` */
  function SessionStatusLabel(status: Value): (shown: Value)
    ensures ToString(status) in SessionStatusLabels ==> shown == Str(SessionStatusLabels[ToString(status)])
    ensures ToString(status) !in SessionStatusLabels ==> shown == status
  {
    var k := ToString(status);
    if k in SessionStatusLabels then Str(SessionStatusLabels[k]) else status
  }

  function SessionStatusLookupAsWritten(status: Value): LabelLookup {
    var k := ToString(status);
    if k in SessionStatusLabels then OwnLabel(SessionStatusLabels[k])
    else if k in ObjectPrototypeKeys then InheritedMember(k)
    else NoLabel
  }

  /** As written, a session status named like an inherited member gets that
      member as its label instead of falling back to the status itself. */
  lemma SessionStatusInheritedLabel()
    ensures SessionStatusLookupAsWritten(Str("toString")) == InheritedMember("toString")
    ensures SessionStatusLabel(Str("toString")) == Str("toString")
  {
  }

  /** Where the source finds one of the table's own labels, the model shows it. */
  lemma SessionStatusLookupAgrees(status: Value)
    ensures SessionStatusLookupAsWritten(status).OwnLabel? ==>
      SessionStatusLabel(status) == Str(SessionStatusLookupAsWritten(status).text)
    ensures SessionStatusLookupAsWritten(status).NoLabel? ==> SessionStatusLabel(status) == status
  {
  }

  datatype PaymentStatus =
    | PaymentStatus(sessionId: Value, paymentStatus: Value, statusLabel: Value, currency: Value,
                    customerEmail: Value, orderId: Value)
    | PaymentStatusFailed(error: string)

  /** `getPaymentStatus(sessionId)` given `checkout.sessions.retrieve`. */
  function GetPaymentStatus(sessionId: Value, api: Api): (r: PaymentStatus)
    ensures api.retrieveSession(sessionId).Err? <==> r.PaymentStatusFailed?
    ensures r.PaymentStatus? ==> r.statusLabel == SessionStatusLabel(api.retrieveSession(sessionId).value.status)
  {
    match api.retrieveSession(sessionId)
    case Err(e) => PaymentStatusFailed(e)
    case Ok(s) =>
      PaymentStatus(s.id, s.paymentStatus, SessionStatusLabel(s.status), s.currency,
                    if s.customerEmail.Some? then s.customerEmail.value else Undefined,
                    if s.metadata.Some? then Get(s.metadata.value, "order_id") else Undefined)
  }

  /** The three session states Stripe reports have French labels; anything else is echoed. */
  lemma SessionStatusLabels3(status: Value)
    ensures status == Str("complete") ==> SessionStatusLabel(status) == Str("Paiement complété")
    ensures status == Str("expired") ==> SessionStatusLabel(status) == Str("Session expirée")
    ensures status == Str("open") ==> SessionStatusLabel(status) == Str("En attente de paiement")
    ensures ToString(status) !in {"complete", "expired", "open"} ==> SessionStatusLabel(status) == status
  {
  }
}
