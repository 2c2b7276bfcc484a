/// The WooCommerce connector (src/services/woocommerce.js). Every REST call is
/// an input: `Api` holds the responses the store gives, keyed by the id that
/// the request path carries. What remains is the connector's own logic: which
/// products are camps, how a camp is read from a product's meta data, the age
/// and month filters, the availability gate in front of an order, the order
/// payload and the French status labels.
module WooCommerce {
  import opened Values

  datatype MetaEntry = MetaEntry(key: string, value: Value)

  datatype Image = Image(src: Value)

  /** A product as the REST API returns it (the fields the connector reads).
      A missing `meta_data` or `short_description` is `None`, a null
      `stock_quantity` is `None`, missing `images` are an empty list. */
  datatype Product = Product(
    id: Value, name: Value, slug: Value, price: Value, regularPrice: Value, salePrice: Value,
    shortDescription: Option<string>, metaData: Option<seq<MetaEntry>>,
    stockQuantity: Option<int>, images: seq<Image>, permalink: Value, inStock: Value)

  /** The camp record the connector builds from a camp product. */
  datatype Camp = Camp(
    id: Value, name: Value, slug: Value, price: Value, regularPrice: Value, description: string,
    startDate: Value, endDate: Value, ageMin: int, ageMax: int,
    spotsTotal: int, spotsRemaining: int,
    campHours: Value, daycareIncluded: bool, daycareHours: Value,
    image: Value, permalink: Value, inStock: Value)

  datatype Billing = Billing(firstName: Value, lastName: Value, email: Value, phone: Value)

  datatype LineItem = LineItem(productId: Value, quantity: Value)

  /** The body of the `POST orders` request. */
  datatype OrderPayload = OrderPayload(
    status: string, billing: Billing, lineItems: seq<LineItem>, metaData: seq<MetaEntry>)

  datatype OrderBilling = OrderBilling(firstName: Value, lastName: Value, email: Value)

  /** An order as the REST API returns it (the fields the connector reads). */
  datatype Order = Order(
    id: Value, number: Value, total: Value, currency: Value, status: Value,
    paymentUrl: Value, dateCreated: Value, billing: OrderBilling, lineItemNames: seq<Value>)

  /** The store's answers to the requests the connector makes. */
  datatype Api = Api(
    campSearch: Result<seq<Product>>,           // GET products, 50 published, search "Camp", oldest first
    catalogue: Result<seq<Product>>,            // GET products, 50 published
    product: string -> Result<Product>,         // GET products/<id>
    order: string -> Result<Order>,             // GET orders/<id>
    ordersByEmail: string -> Result<seq<Order>>,  // GET orders, search <email>, 10 newest first
    postOrder: OrderPayload -> Result<Order>)   // POST orders

  const CampStartKey := "camp_start_date"
  const CampEndKey := "camp_end_date"
  const DefaultSpots := 60
  const DefaultAgeMin := 8
  const DefaultAgeMax := 17
  const DefaultCampHours := "9h00-16h00"
  const DefaultDaycareHours := "8h00-9h00 / 16h00-17h00"
  const BookingSource := "hope-basketball-agent"
  const SoldOutMessage := "Désolé, ce camp est complet. Il n'y a plus de places disponibles."
  const NotACampMessage := "Ce produit n'est pas un camp."

  // ---------------------------------------------------------------------------
  // Reading products
  // ---------------------------------------------------------------------------

  /** `product.meta_data || []` */
  function MetaOf(p: Product): seq<MetaEntry> {
    if p.metaData.Some? then p.metaData.value else []
  }

  /** The index of the first entry with key `key` (what `find` stops at). */
  function FindMeta(meta: seq<MetaEntry>, key: string): (r: Option<nat>)
    ensures r.Some? ==> r.value < |meta| && meta[r.value].key == key
    ensures r.Some? ==> forall j :: 0 <= j < r.value ==> meta[j].key != key
    ensures r.None? ==> forall j :: 0 <= j < |meta| ==> meta[j].key != key
  {
    if meta == [] then None
    else if meta[0].key == key then Some(0)
    else match FindMeta(meta[1..], key)
      case Some(k) => Some(k + 1)
      case None => None
  }

  /** `getMeta(key)`: the value of the first entry with that key, or `null`. */
  function GetMeta(p: Product, key: string): Value {
    match FindMeta(MetaOf(p), key)
    case Some(i) => MetaOf(p)[i].value
    case None => Null
  }

  /** `_isCampProduct`: some meta entry carries a camp start or end date key. */
  function IsCampProduct(p: Product): (r: bool)
    ensures r <==> exists i :: 0 <= i < |MetaOf(p)| && MetaOf(p)[i].key in {CampStartKey, CampEndKey}
    ensures p.metaData.None? ==> !r
  {
    FindMeta(MetaOf(p), CampStartKey).Some? || FindMeta(MetaOf(p), CampEndKey).Some?
  }

  /** `parseInt(v) || fallback` */
  function IntOr(v: Value, fallback: int): int {
    match ParseInt(ToString(v))
    case Some(n) => if n != 0 then n else fallback
    case None => fallback
  }

  /** `product.short_description?.replace(/<[^>]*>/g, '') || ''` */
  function DescriptionOf(p: Product): string {
    if p.shortDescription.Some? then StripTags(p.shortDescription.value) else ""
  }

  /** `product.images?.[0]?.src || null` */
  function ImageOf(p: Product): Value {
    if p.images != [] then Or(p.images[0].src, Null) else Null
  }

  /** `_formatCamp`: a camp read from a product, with the documented defaults. */
  function FormatCamp(p: Product): (c: Camp)
    ensures c.spotsTotal != 0 && c.ageMin != 0 && c.ageMax != 0
    ensures c.spotsRemaining == (if p.stockQuantity.Some? then p.stockQuantity.value else c.spotsTotal)
    ensures c.daycareIncluded <==> GetMeta(p, "daycare_included") == Str("yes")
    ensures TagFree(c.description)
  {
    StripTagsTagFree(if p.shortDescription.Some? then p.shortDescription.value else "");
    var spotsTotal := IntOr(GetMeta(p, "spots_total"), DefaultSpots);
    Camp(
      id := p.id, name := p.name, slug := p.slug, price := p.price, regularPrice := p.regularPrice,
      description := DescriptionOf(p),
      startDate := GetMeta(p, CampStartKey), endDate := GetMeta(p, CampEndKey),
      ageMin := IntOr(GetMeta(p, "age_min"), DefaultAgeMin),
      ageMax := IntOr(GetMeta(p, "age_max"), DefaultAgeMax),
      spotsTotal := spotsTotal,
      spotsRemaining := if p.stockQuantity.Some? then p.stockQuantity.value else spotsTotal,
      campHours := Or(GetMeta(p, "camp_hours"), Str(DefaultCampHours)),
      daycareIncluded := GetMeta(p, "daycare_included") == Str("yes"),
      daycareHours := Or(GetMeta(p, "daycare_hours"), Str(DefaultDaycareHours)),
      image := ImageOf(p), permalink := p.permalink, inStock := p.inStock)
  }

  /** `getMeta` answers with the first matching entry, and with `null` when none matches. */
  lemma GetMetaFirst(p: Product, key: string, i: nat)
    requires i < |MetaOf(p)| && MetaOf(p)[i].key == key
    requires forall j :: 0 <= j < i ==> MetaOf(p)[j].key != key
    ensures GetMeta(p, key) == MetaOf(p)[i].value
  {
    var r := FindMeta(MetaOf(p), key);
    assert r.Some? && r.value == i;
  }

  /** After the leading blanks and an optional sign, the text does not start
      with a digit: `parseInt` finds no number in it. */
  predicate NoLeadingDigit(s: string) {
    var t := TrimStart(s);
    var u := if t != [] && (t[0] == '-' || t[0] == '+') then t[1..] else t;
    u == [] || !('0' <= u[0] <= '9')
  }

  /** `parseInt` of text with no leading digit is NaN. */
  lemma ParseIntNoDigit(s: string)
    requires NoLeadingDigit(s)
    ensures ParseInt(s) == None
  {
    var t := TrimStart(s);
    var u := if t != [] && (t[0] == '-' || t[0] == '+') then t[1..] else t;
    assert DigitRun(u, false) == 0;
  }

  /** A numeric meta value, stored as a number or as its decimal text, is kept
      unless it is 0; a missing, non-numeric or zero value gives the default. */
  lemma IntOrReadsNumbers(n: int, fallback: int)
    ensures IntOr(Num(n), fallback) == (if n != 0 then n else fallback)
    ensures IntOr(Str(Decimal(n)), fallback) == (if n != 0 then n else fallback)
  {
    ParseIntDecimal(n);
  }

  /** Text that starts with a lower-case letter has no leading digit. */
  lemma StartsWithoutDigit(s: string)
    requires s != [] && 'a' <= s[0] <= 'z'
    ensures NoLeadingDigit(s)
  {
    assert s[0] !in WhiteSpace;
    assert TrimStart(s) == s;
  }

  /** The texts of `null`, `undefined`, the booleans and `''` have no leading digit. */
  lemma WordsWithoutDigit()
    ensures NoLeadingDigit("null") && NoLeadingDigit("undefined")
    ensures NoLeadingDigit("true") && NoLeadingDigit("false") && NoLeadingDigit("")
  {
    StartsWithoutDigit("null");
    StartsWithoutDigit("undefined");
    StartsWithoutDigit("true");
    StartsWithoutDigit("false");
  }

  /** Every value whose text has no leading digit, `null`, `undefined`, `''`,
      booleans and words among them, gives the default. */
  lemma IntOrMissing(v: Value, fallback: int)
    ensures NoLeadingDigit(ToString(v)) ==> IntOr(v, fallback) == fallback
    ensures v.Null? || v.Undefined? || v.Bool? || v == Str("") ==> IntOr(v, fallback) == fallback
  {
    WordsWithoutDigit();
    if NoLeadingDigit(ToString(v)) {
      ParseIntNoDigit(ToString(v));
    }
  }

  /** The camp defaults: 60 places and ages 8 to 17 when the meta data has no
      such entry; a non-zero stored figure otherwise. */
  lemma FormatCampDefaults(p: Product)
    ensures FindMeta(MetaOf(p), "spots_total").None? ==> FormatCamp(p).spotsTotal == DefaultSpots
    ensures FindMeta(MetaOf(p), "age_min").None? ==> FormatCamp(p).ageMin == DefaultAgeMin
    ensures FindMeta(MetaOf(p), "age_max").None? ==> FormatCamp(p).ageMax == DefaultAgeMax
    ensures p.stockQuantity == Some(0) ==> FormatCamp(p).spotsRemaining == 0
  {
    IntOrMissing(Null, DefaultSpots);
    IntOrMissing(Null, DefaultAgeMin);
    IntOrMissing(Null, DefaultAgeMax);
  }

  lemma FormatCampStoredSpots(p: Product, n: int)
    requires GetMeta(p, "spots_total") == Num(n) || GetMeta(p, "spots_total") == Str(Decimal(n))
    requires n != 0
    ensures FormatCamp(p).spotsTotal == n
  {
    IntOrReadsNumbers(n, DefaultSpots);
  }

  // ---------------------------------------------------------------------------
  // getCamps
  // ---------------------------------------------------------------------------

  datatype CampsResult = CampsListed(camps: seq<Camp>, total: int) | CampsFailed(error: string)

  /** The camp products of a catalogue page, formatted, in catalogue order. */
  function CampsOf(products: seq<Product>): seq<Camp> {
    Map(Filter(products, IsCampProduct), FormatCamp)
  }

  /** `filters.age >= c.age_min && filters.age <= c.age_max` (NaN compares false). */
  predicate FitsAge(c: Camp, age: Value) {
    match ToNumber(age)
    case Some(a) => c.ageMin <= a <= c.ageMax
    case None => false
  }

  /** `new Date(c.start_date).getMonth() + 1 === parseInt(filters.month)`;
      `startMonth` stands for the date parsing (`None` for an invalid date). */
  predicate InMonth(c: Camp, month: Value, startMonth: Value -> Option<int>) {
    match ParseInt(ToString(month))
    case Some(m) => startMonth(c.startDate) == Some(m)
    case None => false
  }

  function ByAge(camps: seq<Camp>, age: Value): seq<Camp> {
    if Truthy(age) then Filter(camps, c => FitsAge(c, age)) else camps
  }

  function ByMonth(camps: seq<Camp>, month: Value, startMonth: Value -> Option<int>): seq<Camp> {
    if Truthy(month) then Filter(camps, c => InMonth(c, month, startMonth)) else camps
  }

  /** `getCamps(filters)` given the catalogue search response. */
  function GetCamps(filters: map<string, Value>, response: Result<seq<Product>>,
                    startMonth: Value -> Option<int>): (r: CampsResult)
    ensures response.Err? <==> r.CampsFailed?
    ensures r.CampsListed? ==> r.total == |r.camps|
  {
    match response
    case Err(e) => CampsFailed(e)
    case Ok(products) =>
      var camps := ByMonth(ByAge(CampsOf(products), Get(filters, "age")), Get(filters, "month"), startMonth);
      CampsListed(camps, |camps|)
  }

  /** The camps of a page are exactly the formatted camp products. */
  lemma CampsOfMembers(products: seq<Product>, c: Camp)
    ensures c in CampsOf(products) <==> exists p :: p in products && IsCampProduct(p) && FormatCamp(p) == c
  {
    var kept := Filter(products, IsCampProduct);
    FilterMembers(products, IsCampProduct);
    if c in CampsOf(products) {
      MapPreimage(kept, FormatCamp, c);
      var p :| p in kept && FormatCamp(p) == c;
      assert p in products && IsCampProduct(p);
    }
    if p :| p in products && IsCampProduct(p) && FormatCamp(p) == c {
      assert p in kept;
      MapMember(kept, FormatCamp, p);
    }
  }

  /** With a truthy age and no month, the result holds exactly the camp
      products whose age range contains the age, and nothing that is not a camp. */
  lemma GetCampsByAge(filters: map<string, Value>, products: seq<Product>,
                      startMonth: Value -> Option<int>, c: Camp)
    requires Truthy(Get(filters, "age")) && !Truthy(Get(filters, "month"))
    ensures GetCamps(filters, Ok(products), startMonth).CampsListed?
    ensures var camps := GetCamps(filters, Ok(products), startMonth).camps;
      c in camps <==>
        (exists p :: p in products && IsCampProduct(p) && FormatCamp(p) == c) && FitsAge(c, Get(filters, "age"))
  {
    var age := Get(filters, "age");
    var camps := CampsOf(products);
    assert GetCamps(filters, Ok(products), startMonth).camps == Filter(camps, c => FitsAge(c, age));
    FilterMembers(camps, c => FitsAge(c, age));
    CampsOfMembers(products, c);
  }

  /** Camps come out in catalogue order: the answer for two consecutive
      catalogue pieces is the answer for the first followed by that for the second. */
  lemma {:induction false} GetCampsCatalogueOrder(filters: map<string, Value>, a: seq<Product>, b: seq<Product>,
                                                  startMonth: Value -> Option<int>)
    ensures GetCamps(filters, Ok(a + b), startMonth).camps ==
            GetCamps(filters, Ok(a), startMonth).camps + GetCamps(filters, Ok(b), startMonth).camps
  {
    var age, month := Get(filters, "age"), Get(filters, "month");
    FilterAppend(a, b, IsCampProduct);
    MapAppend(Filter(a, IsCampProduct), Filter(b, IsCampProduct), FormatCamp);
    assert CampsOf(a + b) == CampsOf(a) + CampsOf(b);
    FilterAppend(CampsOf(a), CampsOf(b), c => FitsAge(c, age));
    assert ByAge(CampsOf(a + b), age) == ByAge(CampsOf(a), age) + ByAge(CampsOf(b), age);
    FilterAppend(ByAge(CampsOf(a), age), ByAge(CampsOf(b), age), c => InMonth(c, month, startMonth));
  }

  // ---------------------------------------------------------------------------
  // checkAvailability, getCampById
  // ---------------------------------------------------------------------------

  datatype Availability =
    | Availability(productId: Value, name: Value, spotsTotal: int, spotsRemaining: int,
                   isAvailable: bool, price: Value, startDate: Value, endDate: Value)
    | AvailabilityFailed(error: string)

  /** `checkAvailability(productId)`: the camp read from `GET products/<id>`. */
  function CheckAvailability(productId: Value, api: Api): (r: Availability)
    ensures api.product(ToString(productId)).Err? <==> r.AvailabilityFailed?
    ensures r.Availability? ==> (r.isAvailable <==> r.spotsRemaining > 0)
    ensures r.Availability? ==> r.productId == productId
  {
    match api.product(ToString(productId))
    case Err(e) => AvailabilityFailed(e)
    case Ok(p) =>
      var c := FormatCamp(p);
      Availability(productId, c.name, c.spotsTotal, c.spotsRemaining, c.spotsRemaining > 0,
                   c.price, c.startDate, c.endDate)
  }

  /** A product whose stock is 0 is never available, even with places in its meta data. */
  lemma NoStockNotAvailable(productId: Value, api: Api)
    requires api.product(ToString(productId)).Ok?
    requires api.product(ToString(productId)).value.stockQuantity == Some(0)
    ensures !CheckAvailability(productId, api).isAvailable
  {
  }

  datatype CampLookup = CampFound(camp: Camp) | CampLookupFailed(error: string)

  /** `getCampById(productId)`: refuses products that are not camps. */
  function GetCampById(productId: Value, api: Api): (r: CampLookup)
    ensures r.CampFound? <==> api.product(ToString(productId)).Ok? && IsCampProduct(api.product(ToString(productId)).value)
    ensures r.CampFound? ==> r.camp == FormatCamp(api.product(ToString(productId)).value)
  {
    match api.product(ToString(productId))
    case Err(e) => CampLookupFailed(e)
    case Ok(p) => if IsCampProduct(p) then CampFound(FormatCamp(p)) else CampLookupFailed(NotACampMessage)
  }

  // ---------------------------------------------------------------------------
  // createOrder
  // ---------------------------------------------------------------------------

  datatype BookingResult =
    | Booked(orderId: Value, orderNumber: Value, total: Value, currency: Value, status: Value,
             paymentUrl: Value, campName: Value, startDate: Value, endDate: Value)
    | BookingRefused(error: string)

  /** What `createOrder` answers, and the order it posted, if any. */
  datatype Booking = Booking(result: BookingResult, posted: Option<OrderPayload>)

  /** The destructuring default `quantity = 1` applies to `undefined` only. */
  function Quantity(booking: map<string, Value>): Value {
    if Get(booking, "quantity").Undefined? then Num(1) else Get(booking, "quantity")
  }

  function ShortageMessage(remaining: int): string {
    "Il ne reste que " + Decimal(remaining) + " place(s) pour ce camp."
  }

  /** The order `createOrder` posts for a booking. */
  function OrderFor(booking: map<string, Value>): OrderPayload {
    var childAge := Get(booking, "child_age");
    OrderPayload(
      "pending",
      Billing(Get(booking, "customer_first_name"), Get(booking, "customer_last_name"),
              Get(booking, "customer_email"), Or(Get(booking, "customer_phone"), Str(""))),
      [LineItem(Get(booking, "product_id"), Quantity(booking))],
      [MetaEntry("child_name", Or(Get(booking, "child_name"), Str(""))),
       MetaEntry("child_age", Str(if Truthy(childAge) then ToString(childAge) else "")),
       MetaEntry("booking_source", Str(BookingSource))])
  }

  /** The availability gate: refuse a full camp or one with too few places,
      otherwise the order to post. */
  function OrderGate(booking: map<string, Value>, a: Availability): Result<OrderPayload> {
    if a.AvailabilityFailed? || !a.isAvailable then Err(SoldOutMessage)
    else if NumLess(a.spotsRemaining, Quantity(booking)) then Err(ShortageMessage(a.spotsRemaining))
    else Ok(OrderFor(booking))
  }

  /** `createOrder(bookingData)`. */
  function CreateOrder(booking: map<string, Value>, api: Api): (r: Booking)
    ensures r.posted.Some? <==> OrderGate(booking, CheckAvailability(Get(booking, "product_id"), api)).Ok?
    ensures r.result.Booked? ==> r.posted.Some? && api.postOrder(r.posted.value).Ok?
  {
    var a := CheckAvailability(Get(booking, "product_id"), api);
    match OrderGate(booking, a)
    case Err(m) => Booking(BookingRefused(m), None)
    case Ok(payload) =>
      match api.postOrder(payload)
      case Err(e) => Booking(BookingRefused(e), Some(payload))
      case Ok(o) =>
        Booking(Booked(o.id, o.number, o.total, o.currency, o.status, o.paymentUrl,
                       a.name, a.startDate, a.endDate), Some(payload))
  }

  /** A failed lookup or a camp with no place left is refused as complete, and no order is posted. */
  lemma CreateOrderSoldOut(booking: map<string, Value>, api: Api)
    requires var a := CheckAvailability(Get(booking, "product_id"), api);
      a.AvailabilityFailed? || a.spotsRemaining <= 0
    ensures CreateOrder(booking, api) == Booking(BookingRefused(SoldOutMessage), None)
  {
  }

  /** Asking for more places than remain is refused with the count of what
      remains, and no order is posted. */
  lemma CreateOrderShortage(booking: map<string, Value>, api: Api, q: int)
    requires ToNumber(Quantity(booking)) == Some(q)
    requires var a := CheckAvailability(Get(booking, "product_id"), api);
      a.Availability? && 0 < a.spotsRemaining < q
    ensures var a := CheckAvailability(Get(booking, "product_id"), api);
      CreateOrder(booking, api) == Booking(BookingRefused(ShortageMessage(a.spotsRemaining)), None)
  {
  }

  /** Whatever is posted is a pending order for one line of the requested
      product, at a quantity the camp can take (1 when none is given), with
      the child's name and age and the booking source as meta data. */
  lemma CreateOrderPosts(booking: map<string, Value>, api: Api)
    requires CreateOrder(booking, api).posted.Some?
    ensures var a := CheckAvailability(Get(booking, "product_id"), api);
      var o := CreateOrder(booking, api).posted.value;
      && a.Availability? && a.spotsRemaining > 0
      && o.status == "pending"
      && o.lineItems == [LineItem(Get(booking, "product_id"), Quantity(booking))]
      && (Get(booking, "quantity").Undefined? ==> o.lineItems[0].quantity == Num(1))
      && (forall q :: ToNumber(o.lineItems[0].quantity) == Some(q) ==> q <= a.spotsRemaining)
      && o.billing.firstName == Get(booking, "customer_first_name")
      && o.billing.lastName == Get(booking, "customer_last_name")
      && o.billing.email == Get(booking, "customer_email")
      && o.billing.phone == (if Truthy(Get(booking, "customer_phone")) then Get(booking, "customer_phone") else Str(""))
      && |o.metaData| == 3
      && o.metaData[0] == MetaEntry("child_name", if Truthy(Get(booking, "child_name")) then Get(booking, "child_name") else Str(""))
      && o.metaData[1] == MetaEntry("child_age", Str(if Truthy(Get(booking, "child_age"))
                                                       then ToString(Get(booking, "child_age")) else ""))
      && o.metaData[2] == MetaEntry("booking_source", Str(BookingSource))
  {
  }

  // ---------------------------------------------------------------------------
  // getOrderStatus, getOrdersByEmail
  // ---------------------------------------------------------------------------

  const OrderStatusLabels: map<string, string> := map[
    "pending" := "En attente de paiement",
    "processing" := "Paiement reçu — inscription confirmée",
    "completed" := "Inscription complétée",
    "cancelled" := "Annulée",
    "refunded" := "Remboursée",
    "failed" := "Paiement échoué",
    "on-hold" := "En attente de vérification"]

  /** `statusMap[order.status] || order.status`, reading only the table's own entries. */
  function OrderStatusLabel(status: Value): (shown: Value)
    ensures ToString(status) in OrderStatusLabels ==> shown == Str(OrderStatusLabels[ToString(status)])
    ensures ToString(status) !in OrderStatusLabels ==> shown == status
  {
    var k := ToString(status);
    if k in OrderStatusLabels then Str(OrderStatusLabels[k]) else status
  }

  function OrderStatusLookupAsWritten(status: Value): LabelLookup {
    var k := ToString(status);
    if k in OrderStatusLabels then OwnLabel(OrderStatusLabels[k])
    else if k in ObjectPrototypeKeys then InheritedMember(k)
    else NoLabel
  }

  /** As written, a status named like an inherited member gets that member as
      its label instead of falling back to the status itself. */
  lemma OrderStatusInheritedLabel()
    ensures OrderStatusLookupAsWritten(Str("constructor")) == InheritedMember("constructor")
    ensures OrderStatusLabel(Str("constructor")) == Str("constructor")
  {
  }

  /** Every status the store defines has its own French label; every other
      status is echoed unchanged. */
  lemma OrderStatusLabelsKnown(status: Value)
    ensures status in {Str("pending"), Str("processing"), Str("completed"), Str("cancelled"),
                       Str("refunded"), Str("failed"), Str("on-hold")} ==>
      OrderStatusLabel(status).Str? && OrderStatusLabel(status) != status
    ensures OrderStatusLookupAsWritten(status).OwnLabel? ==>
      OrderStatusLabel(status) == Str(OrderStatusLookupAsWritten(status).text)
  {
  }

  datatype OrderStatus =
    | OrderStatus(orderId: Value, orderNumber: Value, status: Value, statusLabel: Value,
                  total: Value, dateCreated: Value, billingName: string, billingEmail: Value)
    | OrderStatusFailed(error: string)

  /** `getOrderStatus(orderId)` given `GET orders/<id>`. */
  function GetOrderStatus(orderId: Value, api: Api): (r: OrderStatus)
    ensures api.order(ToString(orderId)).Err? <==> r.OrderStatusFailed?
    ensures r.OrderStatus? ==> r.statusLabel == OrderStatusLabel(r.status)
  {
    match api.order(ToString(orderId))
    case Err(e) => OrderStatusFailed(e)
    case Ok(o) =>
      OrderStatus(o.id, o.number, o.status, OrderStatusLabel(o.status), o.total, o.dateCreated,
                  ToString(o.billing.firstName) + " " + ToString(o.billing.lastName), o.billing.email)
  }

  datatype OrderSummary = OrderSummary(orderId: Value, orderNumber: Value, status: Value,
                                       total: Value, date: Value, items: string)

  datatype OrdersResult = OrdersFound(orders: seq<OrderSummary>) | OrdersFailed(error: string)

  function Summary(o: Order): OrderSummary {
    OrderSummary(o.id, o.number, o.status, o.total, o.dateCreated, JoinValues(o.lineItemNames, ", "))
  }

  /** `getOrdersByEmail(email)`: one summary per order found, in the store's order. */
  function GetOrdersByEmail(email: Value, api: Api): (r: OrdersResult)
    ensures api.ordersByEmail(ToString(email)).Err? <==> r.OrdersFailed?
    ensures r.OrdersFound? ==> |r.orders| == |api.ordersByEmail(ToString(email)).value|
    ensures r.OrdersFound? ==> forall i :: 0 <= i < |r.orders| ==>
      r.orders[i].orderId == api.ordersByEmail(ToString(email)).value[i].id
  {
    match api.ordersByEmail(ToString(email))
    case Err(e) => OrdersFailed(e)
    case Ok(orders) => OrdersFound(Map(orders, Summary))
  }

  // ---------------------------------------------------------------------------
  // getMerchProducts
  // ---------------------------------------------------------------------------

  datatype Merch = Merch(id: Value, name: Value, price: Value, regularPrice: Value, salePrice: Value,
                         description: string, inStock: Value, image: Value, permalink: Value)

  datatype MerchResult = MerchListed(products: seq<Merch>, total: int) | MerchFailed(error: string)

  function ToMerch(p: Product): Merch {
    Merch(p.id, p.name, p.price, p.regularPrice, p.salePrice, DescriptionOf(p), p.inStock,
          ImageOf(p), p.permalink)
  }

  /** Merchandise is whatever is not a camp. */
  predicate IsMerch(p: Product) {
    !IsCampProduct(p)
  }

  /** `getMerchProducts()` given the catalogue response. */
  function GetMerchProducts(response: Result<seq<Product>>): (r: MerchResult)
    ensures response.Err? <==> r.MerchFailed?
    ensures r.MerchListed? ==> r.total == |r.products|
  {
    match response
    case Err(e) => MerchFailed(e)
    case Ok(products) =>
      var merch := Map(Filter(products, IsMerch), ToMerch);
      MerchListed(merch, |merch|)
  }

  /** On one catalogue page, merchandise and camps split the products between them. */
  lemma MerchAndCampsSplitCatalogue(products: seq<Product>)
    ensures |GetMerchProducts(Ok(products)).products| + |CampsOf(products)| == |products|
  {
    FilterSplit(products, IsCampProduct, IsMerch);
  }

  /** The merchandise of a page is exactly the products that are not camps, formatted. */
  lemma MerchOfMembers(products: seq<Product>, m: Merch)
    ensures m in GetMerchProducts(Ok(products)).products <==>
      exists p :: p in products && !IsCampProduct(p) && ToMerch(p) == m
  {
    var kept := Filter(products, IsMerch);
    assert GetMerchProducts(Ok(products)).products == Map(kept, ToMerch);
    FilterMembers(products, IsMerch);
    if m in Map(kept, ToMerch) {
      MapPreimage(kept, ToMerch, m);
      var p :| p in kept && ToMerch(p) == m;
      assert p in products && !IsCampProduct(p);
    }
    if p :| p in products && !IsCampProduct(p) && ToMerch(p) == m {
      assert p in kept;
      MapMember(kept, ToMerch, p);
    }
  }

  /** Every product of the page is listed, as a camp or as merchandise. */
  lemma CatalogueProductListed(products: seq<Product>, p: Product)
    requires p in products
    ensures IsCampProduct(p) ==> FormatCamp(p) in CampsOf(products)
    ensures !IsCampProduct(p) ==> ToMerch(p) in GetMerchProducts(Ok(products)).products
  {
    if IsCampProduct(p) {
      CampsOfMembers(products, FormatCamp(p));
    } else {
      FilterMembers(products, IsMerch);
      MapMember(Filter(products, IsMerch), ToMerch, p);
    }
  }
}
