/// The tools the language model may call (src/server.js): the static FAQ and
/// `executeTool`, which sends each tool name to the WooCommerce or Stripe
/// service with the fields of the tool's input.
module Tools {
  import opened Values
  import WooCommerce
  import Stripe

  // ---------------------------------------------------------------------------
  // getFAQ
  // ---------------------------------------------------------------------------

  /** The entries of the FAQ table, one constructor each, in table order. */
  datatype FaqEntry =
    | Register
    | SeveralChildren
    | PaymentMethods
    | Taxes
    | Cancellation
    | WhatToBring
    | Daycare
    | Ages
    | Location
    | FreeSpots

  /** The entry's `q` field. */
  function Question(e: FaqEntry): string {
    match e
    case Register => "Comment inscrire mon enfant?"
    case SeveralChildren => "Peut-on inscrire plusieurs enfants?"
    case PaymentMethods => "Quels modes de paiement acceptez-vous?"
    case Taxes => "Les taxes sont-elles incluses?"
    case Cancellation => "Quelle est votre politique d'annulation?"
    case WhatToBring => "Que doit apporter mon enfant?"
    case Daycare => "Y a-t-il un service de garde?"
    case Ages => "À quel âge peut-on participer?"
    case Location => "Où se déroulent les camps?"
    case FreeSpots => "Y a-t-il des places gratuites?"
  }

  /** The entry's `a` field. */
  function Answer(e: FaqEntry): string {
    match e
    case Register =>
      "Vous pouvez inscrire votre enfant directement via ce chat! Je vais vous guider étape par étape. Vous aurez besoin du nom de votre enfant, son âge, et vos coordonnées. Le paiement se fait en ligne par carte de crédit via Stripe (sécurisé)."
    case SeveralChildren =>
      "Absolument! Vous pouvez inscrire plusieurs enfants. Chaque inscription est traitée séparément pour que chaque enfant ait sa place réservée."
    case PaymentMethods =>
      "Nous acceptons les paiements par carte de crédit (Visa, Mastercard, American Express) via notre plateforme sécurisée Stripe."
    case Taxes =>
      "Les prix affichés sont avant taxes. La TPS (5%) et la TVQ (9.975%) s'appliquent au montant."
    case Cancellation =>
      "Pour toute demande d'annulation ou de remboursement, veuillez contacter Hope Basketball directement à info.hopebasketballquebec@gmail.com. Chaque situation est évaluée individuellement."
    case WhatToBring =>
      "Votre enfant doit apporter : un lunch et des collations, une bouteille d'eau, des vêtements de sport confortables, et des chaussures de sport intérieures (semelles non marquantes). Un ballon de basketball est fourni sur place."
    case Daycare =>
      "Oui! Le service de garde est inclus dans le prix du camp. Il est disponible de 8h00 à 9h00 le matin et de 16h00 à 17h00 l'après-midi."
    case Ages =>
      "Les camps sont ouverts aux jeunes de 8 à 17 ans, tous niveaux confondus. Aucune expérience en basketball n'est requise!"
    case Location =>
      "Les camps se déroulent au Collège Mariste de Québec, situé au 2315 Chemin St-Louis, Québec."
    case FreeSpots =>
      "Oui! Hope Basketball offre environ 15 places gratuites par camp pour les jeunes de milieux défavorisés. C'est au cœur de notre mission sociale. Contactez-nous pour en savoir plus."
  }

  /** An entry of the full list, tagged with the category it comes from. */
  datatype TaggedFaq = TaggedFaq(entry: FaqEntry, category: string)

  /** The categories, in the order the table declares them. */
  const Categories: seq<string> := ["inscription", "paiement", "annulation", "equipement", "general"]

  /** The table: each category's entries, in order. */
  const Faqs: map<string, seq<FaqEntry>> := map[
    "inscription" := [Register, SeveralChildren],
    "paiement" := [PaymentMethods, Taxes],
    "annulation" := [Cancellation],
    "equipement" := [WhatToBring, Daycare],
    "general" := [Ages, Location, FreeSpots]]

  /** `{success: true, faqs: faqs[topic], topic}` or `{success: true, faqs: allFaqs, topic: 'all'}`. */
  datatype FaqResult = TopicFaqs(faqs: seq<FaqEntry>, topic: Value) | AllFaqs(all: seq<TaggedFaq>)

  function Tag(category: string, e: FaqEntry): TaggedFaq {
    TaggedFaq(e, category)
  }

  function Untag(t: TaggedFaq): FaqEntry {
    t.entry
  }

  /** `Object.entries(faqs).flatMap(([cat, items]) => items.map(item => ({...item, category: cat})))`
      over the given categories. */
  function Flatten(categories: seq<string>): seq<TaggedFaq>
    requires forall i :: 0 <= i < |categories| ==> categories[i] in Faqs
  {
    if categories == [] then []
    else Map(Faqs[categories[0]], e => Tag(categories[0], e)) + Flatten(categories[1..])
  }

  /** The FAQ lists of the given categories, one after the other. */
  function Concat(categories: seq<string>): seq<FaqEntry>
    requires forall i :: 0 <= i < |categories| ==> categories[i] in Faqs
  {
    if categories == [] then [] else Faqs[categories[0]] + Concat(categories[1..])
  }

  /** `getFAQ(topic)`: the list of a known category, or every entry. Only the
      table's own categories count as known (see README, "Findings"). */
  function GetFaq(topic: Value): FaqResult {
    if Truthy(topic) && ToString(topic) in Faqs then TopicFaqs(Faqs[ToString(topic)], topic)
    else AllFaqs(Flatten(Categories))
  }

  /** Flattening keeps every entry and its order, and tags each with the
      category it comes from. */
  lemma {:induction false} FlattenTags(categories: seq<string>)
    requires forall i :: 0 <= i < |categories| ==> categories[i] in Faqs
    ensures Map(Flatten(categories), Untag) == Concat(categories)
    ensures forall t :: t in Flatten(categories) ==>
      t.category in categories && Untag(t) in Faqs[t.category]
  {
    if categories != [] {
      var c := categories[0];
      var head := Map(Faqs[c], e => Tag(c, e));
      FlattenTags(categories[1..]);
      MapAppend(head, Flatten(categories[1..]), Untag);
      assert Map(head, Untag) == Faqs[c];
      forall t | t in head ensures t.category in categories && Untag(t) in Faqs[t.category] {
        var i :| 0 <= i < |head| && head[i] == t;
        assert Untag(t) == Faqs[c][i];
      }
    }
  }

  /** A known topic gets exactly its category's list, with the topic echoed. */
  lemma GetFaqKnownTopic(topic: Value)
    requires topic.Str? && topic.s in Faqs
    ensures GetFaq(topic) == TopicFaqs(Faqs[topic.s], topic)
  {
  }

  /** The table's lists, category after category, hold every entry once. */
  lemma ConcatCategories()
    ensures Concat(Categories) ==
      [Register, SeveralChildren, PaymentMethods, Taxes, Cancellation,
       WhatToBring, Daycare, Ages, Location, FreeSpots]
  {
    assert Categories[1..] == ["paiement", "annulation", "equipement", "general"];
    assert Categories[2..] == ["annulation", "equipement", "general"];
    assert Categories[3..] == ["equipement", "general"];
    assert Categories[4..] == ["general"];
  }

  /** Any other topic, or none, gets all ten entries, category after category
      in the table's order, each tagged with its category. */
  lemma GetFaqOtherTopic(topic: Value)
    requires !Truthy(topic) || ToString(topic) !in Faqs
    ensures GetFaq(topic).AllFaqs?
    ensures Map(GetFaq(topic).all, Untag) ==
      [Register, SeveralChildren, PaymentMethods, Taxes, Cancellation,
       WhatToBring, Daycare, Ages, Location, FreeSpots]
    ensures forall t :: t in GetFaq(topic).all ==> t.category in Faqs && Untag(t) in Faqs[t.category]
  {
    FlattenTags(Categories);
    ConcatCategories();
  }

  /** What the lookup `faqs[topic]` of the source finds: an own category, a
      member every object inherits, or nothing. */
  datatype FaqLookup = OwnCategory(name: string) | InheritedTopic(name: string) | NoCategory

  function FaqLookupAsWritten(topic: Value): FaqLookup {
    var k := ToString(topic);
    if !Truthy(topic) then NoCategory
    else if k in Faqs then OwnCategory(k)
    else if k in ObjectPrototypeKeys then InheritedTopic(k)
    else NoCategory
  }

  /** As written, the topic "constructor" finds the inherited `Object`
      constructor: the answer carries no FAQ at all instead of the full list. */
  lemma FaqInheritedTopic()
    ensures FaqLookupAsWritten(Str("constructor")) == InheritedTopic("constructor")
    ensures GetFaq(Str("constructor")).AllFaqs?
  {
  }

  /** Where the source finds an own category, the model answers with it. */
  lemma FaqLookupAgrees(topic: Value)
    ensures FaqLookupAsWritten(topic).OwnCategory? ==>
      GetFaq(topic) == TopicFaqs(Faqs[FaqLookupAsWritten(topic).name], topic)
    ensures FaqLookupAsWritten(topic).NoCategory? ==> GetFaq(topic).AllFaqs?
  {
  }

  // ---------------------------------------------------------------------------
  // executeTool
  // ---------------------------------------------------------------------------

  /** Everything a tool call may consult: the shop's and Stripe's answers,
      `process.env.WOO_URL` ("" when unset) and the month `new Date(d)` gives
      for a camp's start date (`None` for an invalid date). */
  datatype Backend = Backend(woo: WooCommerce.Api, stripe: Stripe.Api, wooUrl: string,
                             startMonth: Value -> Option<int>)

  /** The object a tool call returns, which is fed back to the model. */
  datatype ToolOutput =
    | CampsOut(camps: WooCommerce.CampsResult)
    | AvailabilityOut(availability: WooCommerce.Availability)
    | BookingOut(booking: WooCommerce.BookingResult)
    | PaymentLinkOut(link: Stripe.PaymentLinkResult)
    | OrderStatusOut(status: WooCommerce.OrderStatus)
    | OrdersOut(orders: WooCommerce.OrdersResult)
    | MissingLookupKey(error: string)
    | MerchOut(merch: WooCommerce.MerchResult)
    | FaqOut(faq: FaqResult)
    | UnknownTool(error: string)

  const ToolNames: set<string> :=
    {"get_camps", "check_availability", "create_booking", "create_payment_link",
     "get_order_status", "get_merch", "get_faq"}

  const MissingLookupKeyMessage := "Veuillez fournir un numéro de commande ou un email."

  /** The object `createPaymentLink` receives: the five fields the tool forwards. */
  function PaymentLinkParams(input: map<string, Value>): map<string, Value> {
    map["order_id" := Get(input, "order_id"), "camp_name" := Get(input, "camp_name"),
        "price" := Get(input, "price"), "customer_email" := Get(input, "customer_email"),
        "child_name" := Get(input, "child_name")]
  }

  /** `executeTool(toolName, toolInput)`. */
  function ExecuteTool(b: Backend, name: string, input: map<string, Value>): (out: ToolOutput)
    ensures name !in ToolNames <==> out.UnknownTool?
    ensures out.UnknownTool? ==> out.error == "Outil inconnu: " + name
  {
    if name == "get_camps" then CampsOut(WooCommerce.GetCamps(input, b.woo.campSearch, b.startMonth))
    else if name == "check_availability" then
      AvailabilityOut(WooCommerce.CheckAvailability(Get(input, "product_id"), b.woo))
    else if name == "create_booking" then BookingOut(WooCommerce.CreateOrder(input, b.woo).result)
    else if name == "create_payment_link" then
      PaymentLinkOut(Stripe.CreatePaymentLink(PaymentLinkParams(input), b.wooUrl, b.stripe))
    else if name == "get_order_status" then
      if Truthy(Get(input, "order_id")) then OrderStatusOut(WooCommerce.GetOrderStatus(Get(input, "order_id"), b.woo))
      else if Truthy(Get(input, "email")) then OrdersOut(WooCommerce.GetOrdersByEmail(Get(input, "email"), b.woo))
      else MissingLookupKey(MissingLookupKeyMessage)
    else if name == "get_merch" then MerchOut(WooCommerce.GetMerchProducts(b.woo.catalogue))
    else if name == "get_faq" then FaqOut(GetFaq(Get(input, "topic")))
    else UnknownTool("Outil inconnu: " + name)
  }

  /** An order status request looks up the order id first, then the email,
      and without either answers the same failure whatever the shop holds. */
  lemma OrderStatusDispatch(b: Backend, other: Backend, input: map<string, Value>)
    ensures var out := ExecuteTool(b, "get_order_status", input);
      && (Truthy(Get(input, "order_id")) ==>
            out == OrderStatusOut(WooCommerce.GetOrderStatus(Get(input, "order_id"), b.woo)))
      && (!Truthy(Get(input, "order_id")) && Truthy(Get(input, "email")) ==>
            out == OrdersOut(WooCommerce.GetOrdersByEmail(Get(input, "email"), b.woo)))
      && (!Truthy(Get(input, "order_id")) && !Truthy(Get(input, "email")) ==>
            out == MissingLookupKey(MissingLookupKeyMessage) &&
            ExecuteTool(other, "get_order_status", input) == out)
  {
  }

  /** A booking made through the tool passes the availability gate: a full
      camp, or one the shop cannot report on, is refused as sold out. */
  lemma BookingToolSoldOut(b: Backend, input: map<string, Value>)
    requires var a := WooCommerce.CheckAvailability(Get(input, "product_id"), b.woo);
      a.AvailabilityFailed? || a.spotsRemaining <= 0
    ensures ExecuteTool(b, "create_booking", input) ==
      BookingOut(WooCommerce.BookingRefused(WooCommerce.SoldOutMessage))
  {
    WooCommerce.CreateOrderSoldOut(input, b.woo);
  }

  /** The FAQ tool answers from the static table alone. */
  lemma FaqToolStatic(b: Backend, other: Backend, input: map<string, Value>)
    ensures ExecuteTool(b, "get_faq", input) == ExecuteTool(other, "get_faq", input)
    ensures ExecuteTool(b, "get_faq", input) == FaqOut(GetFaq(Get(input, "topic")))
  {
  }
}
