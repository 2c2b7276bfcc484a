# Hope Basketball registration agent — a Dafny model

The Hope Basketball agent is a small Node server. A visitor chats with a
language model that can call seven tools: list camps, check availability, book,
create a payment link, look up an order, list merchandise and answer FAQs.
The server keeps each visitor's conversation in an in-memory session map. It
defines `cleanExpiredSessions` to drop sessions older than two hours, but
nothing calls it, so in the running server a session is never removed. Stripe notifies payments through a signed webhook, which
updates the WooCommerce order.

This project models that core in Dafny 4.11:

- `values.dfy` (`Values`): the JavaScript semantics the code relies on. It
  covers JSON values, truthiness, `||`, `String(v)`, `parseInt`, `Number`,
  `Array.join`, `filter`/`map`, the tag-stripping regular expression and the
  names every object literal inherits.
- `woocommerce.dfy` (`WooCommerce`): `WooCommerceService`. It covers camp
  detection and formatting, `getCamps` and its filters, `getCampById`,
  `checkAvailability`, the booking gate of `createOrder`, order status, orders
  by email and merchandise. The REST answers are inputs (`Api`).
- `stripe.dfy` (`Stripe`): `StripeService`. It covers the checkout-session and
  payment-link requests, `verifyWebhook`, `handleWebhookEvent` over a map of
  the shop's orders, and `getPaymentStatus`. Stripe's answers are inputs.
- `tools.dfy` (`Tools`): `getFAQ` and `executeTool`, the dispatcher from a
  tool name to a service call.
- `server.dfy` (`Server`): the `/api/chat` route, the tool-use loop,
  `cleanExpiredSessions` (defined, never called) and the `/webhook/stripe` route.
  - The session map is the field of class `ChatServer`. Its `Chat`, `Sweep`
    and loop methods update it in place.
  - Each method is proved against a specification function: `HandleChat`,
    `Exchanged`, `Converse` or `Unexpired`. The lemmas beside those functions
    state what the route promises.

The language model is a finite script of answers (`seq<ModelCall>`). Each
answer is either a response or a failed call. The chat method takes the tool
runner as a parameter. The server's own runner is `Server.Executor(b)`, which
runs `Tools.ExecuteTool` over the services' answers `b`. `Server.ServeChats`
serves a run of requests with it.

In these places the model follows the code as written:

- Sessions expire two hours after creation, not after inactivity.
- The tool loop has no iteration bound.
- Replaying `checkout.session.completed` puts the order back to `processing`
  even when it is already further on (`Stripe.CheckoutReplayResetsStatus`).
  It does not leave a paid order alone.
- A failed order update on `payment_intent.payment_failed` is not caught. It
  escapes the webhook route (`Stripe.PaymentFailedMarksFailed`, `Server.WebhookHandlesVerified`).
- The route is `/webhook/stripe`.

## Model

| member | source | states |
|---|---|---|
| Values.ParseIntDecimal | src/services/woocommerce.js:329 | `parseInt(String(n))` is `n` for every integer, so a spot count stored as a number or as its decimal string reads back unchanged |
| Values.StringToNumberDecimal | src/services/woocommerce.js:48-51 | `Number(String(n))` is `n`: an age given as a decimal string compares like the number |
| Values.StripTagsTagFree | src/services/woocommerce.js:338 | the description after `replace(/<[^>]*>/g, '')` holds no complete tag |
| Values.StripTagsIdempotent | src/services/woocommerce.js:338 | stripping tags twice is stripping them once |
| Values.JoinEmpty | src/server.js:465-469 | a newline join is empty exactly when there are no parts or one empty part (when the apology replaces it) |
| WooCommerce.GetMeta | src/services/woocommerce.js:324-327 | `getMeta`: the first matching entry's value, or null; its property is stated by `WooCommerce.GetMetaFirst` |
| WooCommerce.IntOr | src/services/woocommerce.js:329-343 | `parseInt(v) \|\| default`; its properties are stated by `WooCommerce.IntOrReadsNumbers` and `WooCommerce.IntOrMissing` |
| WooCommerce.FindMeta | src/services/woocommerce.js:324-327 | `find` returns the first meta entry with the key, or none when no entry has it |
| WooCommerce.GetMetaFirst | src/services/woocommerce.js:324-327 | `getMeta` yields the value of the first entry carrying the key |
| WooCommerce.IsCampProduct | src/services/woocommerce.js:313-318 | a product is a camp exactly when some meta entry has key `camp_start_date` or `camp_end_date`; a product without meta data is not one |
| WooCommerce.FormatCamp | src/services/woocommerce.js:323-352 | total spots and age bounds are never 0 (`parseInt(..) \|\| default`), remaining spots are the stock or else the total, daycare is included exactly when the meta value is `'yes'`, the description is tag-free |
| WooCommerce.IntOrReadsNumbers | src/services/woocommerce.js:329-343 | a non-zero number, or its decimal string, is read as itself; 0 falls back to the default |
| WooCommerce.IntOrMissing | src/services/woocommerce.js:329-343 | every value whose text, after blanks and an optional sign, does not start with a digit falls back to the default; null, undefined, booleans and `''` among them |
| WooCommerce.ParseIntNoDigit | src/services/woocommerce.js:329 | `parseInt` of text with no leading digit is NaN |
| WooCommerce.FormatCampDefaults | src/services/woocommerce.js:329-343 | missing `spots_total`, `age_min`, `age_max` give 60, 8 and 17; a stock of 0 stays 0 remaining spots (`??`, not `\|\|`) |
| WooCommerce.FormatCampStoredSpots | src/services/woocommerce.js:329 | a stored non-zero spot count is the camp's total |
| WooCommerce.GetCamps | src/services/woocommerce.js:31-71 | a failed catalogue request is a failure and only it; `total` is the number of camps returned |
| WooCommerce.CampsOfMembers | src/services/woocommerce.js:43-45 | the camps of a page are exactly the formatted products that are camps |
| WooCommerce.GetCampsByAge | src/services/woocommerce.js:43-53 | with an age and no month, a camp is listed exactly when it comes from a camp product and its age range holds the age |
| WooCommerce.GetCampsCatalogueOrder | src/services/woocommerce.js:43-60 | filtering keeps catalogue order: the camps of two concatenated pages are the camps of each, in order |
| WooCommerce.CheckAvailability | src/services/woocommerce.js:100-120 | fails exactly when the product request fails; `is_available` holds exactly when spots remain; the product id is echoed |
| WooCommerce.NoStockNotAvailable | src/services/woocommerce.js:103-111 | a product with stock 0 is not available, whatever its stored total |
| WooCommerce.GetCampById | src/services/woocommerce.js:78-89 | a camp is found exactly when the product exists and is a camp, and it is that product formatted |
| WooCommerce.OrderFor | src/services/woocommerce.js:160-179 | the posted order body; what it holds is stated by `WooCommerce.CreateOrderPosts` |
| WooCommerce.OrderGate | src/services/woocommerce.js:145-158 | the availability check before an order; its cases are stated by `WooCommerce.CreateOrderSoldOut`, `WooCommerce.CreateOrderShortage` and `WooCommerce.CreateOrder` |
| WooCommerce.CreateOrder | src/services/woocommerce.js:131-199 | an order is posted exactly when the availability gate passes; a booking succeeds only if an order was posted and the shop accepted it |
| WooCommerce.CreateOrderSoldOut | src/services/woocommerce.js:145-151 | a full camp, or one whose availability cannot be read, is refused with the sold-out message and nothing is posted |
| WooCommerce.CreateOrderShortage | src/services/woocommerce.js:153-158 | asking for more places than remain is refused with the remaining count and nothing is posted |
| WooCommerce.CreateOrderPosts | src/services/woocommerce.js:145-181 | a posted order is `pending`, for an available camp, with one line of the requested quantity (1 by default) that fits the remaining places, the customer's first name, last name and email, the phone or `''`, and the meta entries `child_name` (or `''`), `child_age` (its text, or `''`) and `booking_source` |
| WooCommerce.OrderStatusLabel | src/services/woocommerce.js:210-225 | a status in the table shows its French label, any other status is shown as itself |
| WooCommerce.OrderStatusLabelsKnown | src/services/woocommerce.js:210-225 | each of the seven store statuses has its own label; where the table has an own entry the model shows it |
| WooCommerce.OrderStatusInheritedLabel | src/services/woocommerce.js:225 | as written, the status `constructor` finds an inherited member, where the fallback to the status was intended |
| WooCommerce.GetOrderStatus | src/services/woocommerce.js:206-237 | fails exactly when the order request fails; the label is the status's label |
| WooCommerce.GetOrdersByEmail | src/services/woocommerce.js:244-268 | fails exactly when the search fails; one summary per order found, in the store's order, each with that order's id |
| WooCommerce.GetMerchProducts | src/services/woocommerce.js:278-304 | fails exactly when the catalogue request fails; `total` counts the products returned |
| WooCommerce.MerchOfMembers | src/services/woocommerce.js:285-297 | the merchandise of a page is exactly the products that are not camps, formatted |
| WooCommerce.MerchAndCampsSplitCatalogue | src/services/woocommerce.js:285-286 | every product of a page is either merchandise or a camp, never both |
| WooCommerce.CatalogueProductListed | src/services/woocommerce.js:285-286 | each product of a page appears, formatted, among the camps or among the merchandise |
| Stripe.SessionRequestFor | src/services/stripe.js:30-82 | the `checkout.sessions.create` request; its defaults are stated by `Stripe.CheckoutDefaultUrls` and `Stripe.CheckoutDescriptionNamesChild` |
| Stripe.CreateCheckoutSession | src/services/stripe.js:28-94 | fails exactly when Stripe refuses the request; a session opened answers the order id it was asked for |
| Stripe.CheckoutDefaultUrls | src/services/stripe.js:42-81 | without given URLs, success and cancel URLs are the site's confirmation and cancellation pages for the order, distinct, and the order id can be read back from the success URL |
| Stripe.CheckoutDescriptionNamesChild | src/services/stripe.js:34-65 | the line description names the child when one is given and is the generic text otherwise; quantity defaults to 1 |
| Stripe.LinkProduct | src/services/stripe.js:110-119 | the `products.create` request of a payment link; the product is named after the camp and described after the child when one is given |
| Stripe.LinkRequestFor | src/services/stripe.js:127-139 | the `paymentLinks.create` request; its redirect and metadata are stated by `Stripe.PaymentLinkRedirect` |
| Stripe.CreatePaymentLink | src/services/stripe.js:105-151 | a refused product creation ends it with that error; a created link answers the order id |
| Stripe.PaymentLinkRedirect | src/services/stripe.js:127-139 | a created link was asked for with a redirect to the order's confirmation page, whose order id reads back, and with the order id as metadata |
| Stripe.VerifyWebhook | src/services/stripe.js:163-175 | an event is accepted exactly when signature checking constructs it, and a rejection carries the checker's error |
| Stripe.Put | src/services/stripe.js:194-206 | an accepted update of an order the shop holds sets its status and the given meta keys, keeps its other meta entries, changes no other order and creates none |
| Stripe.HandleWebhookEvent | src/services/stripe.js:183-250 | the set of orders never changes (the shop accepts updates only for orders it holds); a failed or escaping update changes no order; events other than checkout completion and payment failure change nothing and succeed |
| Stripe.CheckoutCompletedMarksProcessing | src/services/stripe.js:187-210 | a completed checkout with an order id puts that order in `processing` with the session id recorded, and leaves other orders as they were |
| Stripe.CheckoutCompletedIdempotent | src/services/stripe.js:187-219 | handling the same completed checkout twice leaves the orders as after the first time |
| Stripe.CheckoutReplayResetsStatus | src/services/stripe.js:194-206 | a replayed completion puts a `completed` order back to `processing` |
| Stripe.CheckoutCompletedWithoutOrder | src/services/stripe.js:189-219 | without an order id nothing changes (`no_order_id`); a refused update is reported and changes nothing |
| Stripe.PaymentFailedMarksFailed | src/services/stripe.js:230-244 | a failed payment with an order id marks the order `failed`, keeps its meta and changes no other order; a refused update escapes; without an id nothing changes |
| Stripe.OtherEventsIgnored | src/services/stripe.js:222-248 | `payment_intent.succeeded` is logged, any other kind ignored, and neither changes an order |
| Stripe.SessionStatusLabel | src/services/stripe.js:306-316 | a session status in the table shows its French label, any other is shown as itself |
| Stripe.SessionStatusLabels3 | src/services/stripe.js:306-316 | `complete`, `expired` and `open` have their labels; every other status is echoed |
| Stripe.SessionStatusInheritedLabel | src/services/stripe.js:316 | as written, the status `toString` finds an inherited member, where the fallback to the status was intended |
| Stripe.SessionStatusLookupAgrees | src/services/stripe.js:316 | where the lookup finds an own label or nothing, the model shows the same |
| Stripe.GetPaymentStatus | src/services/stripe.js:302-326 | fails exactly when the retrieval fails; the label is the session status's label |
| Tools.GetFaq | src/server.js:336-399 | `getFAQ`; its answers are stated by `Tools.GetFaqKnownTopic`, `Tools.GetFaqOtherTopic` and `Tools.FaqLookupAgrees` |
| Tools.FlattenTags | src/server.js:393-396 | flattening keeps every entry in category order and tags each with the category that holds it |
| Tools.GetFaqKnownTopic | src/server.js:390-391 | a known topic answers that category's entries |
| Tools.ConcatCategories | src/server.js:337-386 | the table's categories hold the ten entries, in declaration order |
| Tools.GetFaqOtherTopic | src/server.js:393-398 | any other topic answers all ten entries, in order, each tagged with its own category |
| Tools.FaqInheritedTopic | src/server.js:390 | as written, the topic `constructor` finds an inherited member, where the full list was intended |
| Tools.FaqLookupAgrees | src/server.js:390-398 | where the lookup finds an own category or nothing, the model answers the same |
| Tools.ExecuteTool | src/server.js:288-330 | a tool name outside the seven is exactly the case answered by `Outil inconnu: <name>` |
| Tools.OrderStatusDispatch | src/server.js:312-319 | the order id wins over the email; with neither the answer is the same fixed error whatever the shop holds |
| Tools.BookingToolSoldOut | src/server.js:298-299 | a booking through the tool for a full camp is refused as sold out |
| Tools.FaqToolStatic | src/server.js:324-325 | the FAQ tool answers from the static table, whatever the services answer |
| Server.Window | src/server.js:424 | `slice(-20)`; stated by `Server.WindowSuffix` |
| Server.WindowSuffix | src/server.js:424 | the context is the last twenty messages, or the whole history when shorter |
| Server.ToolUses | src/server.js:436-438 | only tool-use blocks are run |
| Server.ToolUsesAppend | src/server.js:436-438 | tool uses are kept in block order: those of two concatenated block lists are those of each, in turn |
| Server.ToolUsesMembers | src/server.js:436-438 | a block is run exactly when it is a tool use of the response |
| Server.ResultsFor | src/server.js:440-448 | one result per tool use (its length is that of the tool uses); stated element by element by `Server.ResultsForAt` |
| Server.ResultsForAt | src/server.js:440-448 | result `i` answers tool use `i` with its id and what running it gives |
| Server.ResultsForSnoc | src/server.js:440-448 | running one more tool use appends its result |
| Server.RunTools | src/server.js:440-448 | the loop collects exactly one result per tool use, in order |
| Server.Round | src/server.js:450-453 | the two messages of a tool round; stated by `Server.RoundAppends` |
| Server.ReplyText | src/server.js:465-470 | the reply text; stated by `Server.ReplyTextCases` |
| Server.TextsEmpty | src/server.js:465-468 | there are no texts exactly when the response has no text block |
| Server.ReplyTextCases | src/server.js:465-469 | the reply is never empty: the joined texts when not empty, the apology when the response has no text |
| Server.Converse | src/server.js:435-463 | the tool-use loop; stated by `Server.ConverseGrows`, `Server.ConverseEnds`, `Server.ConverseContexts` and `Server.ConverseRoundShape`, and proved equal to the while loop of `Server.ChatServer.ToolLoop` |
| Server.ConverseStep | src/server.js:435-462 | proof step for the loop: one iteration is a tool round, then the loop continues from the next response |
| Server.RoundAppends | src/server.js:450-452 | a round appends the response and then the results of exactly its tool uses |
| Server.ConverseGrows | src/server.js:435-462 | the loop only appends to the history, two messages per model call |
| Server.ConverseAnswered | src/server.js:435 | proof step for the loop: a response that asks for no tool ends the loop at once, with no round |
| Server.ConverseEnds | src/server.js:435-462 | at most one call per scripted answer plus one; an answer that ends the loop asks for no tool; running out of script means every scripted answer was used |
| Server.SawWindowsAt | src/server.js:424-461 | call `j` saw the last twenty messages of the history two messages per round further on |
| Server.SawWindowsExtend | src/server.js:450-451 | appending to the history does not change what earlier calls saw |
| Server.ConverseContexts | src/server.js:455-461 | each call in the loop sees the last twenty messages after its round |
| Server.ToolRoundsConcat | src/server.js:450-451 | runs of tool rounds compose |
| Server.ConverseRoundShape | src/server.js:435-452 | what the loop appends is a run of (response, results of its tool uses) pairs |
| Server.SessionIdFor | src/server.js:414 | a truthy requested id is kept; otherwise the id starts with `session_` and is longer than that prefix |
| Server.SessionIdReadsClock | src/server.js:414 | a generated id carries the clock reading it was made at |
| Server.Exchanged | src/server.js:426-478 | the first call, the loop and the stored reply; stated by `Server.ExchangeHistory` and `Server.ExchangeReply` |
| Server.AfterLoopExtends | src/server.js:472 | proof step: after the loop the history is the loop's, possibly followed by the reply |
| Server.ExchangeHistory | src/server.js:421-472 | the history only grows from the visitor's message on, and every call, the first included, sees the last twenty messages at that point |
| Server.ExchangeReply | src/server.js:464-478 | a reply is non-empty text that is the last message stored; at most one call per scripted answer plus one |
| Server.HandleChat | src/server.js:405-485 | the `/api/chat` route on values; stated by `Server.ChatNeedsMessage`, `Server.ChatSession`, `Server.ChatWithoutTools` and `Server.ChatModelFailure`, and proved equal to `Server.ChatServer.Chat` |
| Server.ChatUnfolds | src/server.js:405-485 | proof step for the chat lemmas: a request with a message stores the exchange in the session it names, created now when new |
| Server.ChatNeedsMessage | src/server.js:409-411 | a request without a truthy message gets 400 `Message requis` and changes nothing |
| Server.ChatSession | src/server.js:413-478 | only the named session changes (or is created, at `now`); its creation time is kept; its history extends the old history plus the visitor's message; each call sees the last twenty messages; a reply answers the session id with non-empty text |
| Server.ChatWithoutTools | src/server.js:426-478 | a first answer without tool use is the reply, after one call, and the session gains exactly the message and the reply |
| Server.ChatModelFailure | src/server.js:479-484 | a failed model call answers the generic 500 error and the session keeps the visitor's message |
| Server.ChatServer.constructor | src/server.js:28 | the session map starts empty |
| Server.ChatServer.Chat | src/server.js:405-485 | the route's reply, the sessions afterwards and each call's context are those `HandleChat` specifies |
| Server.ChatServer.RunExchange | src/server.js:426-478 | the calls, the loop and the appended reply do what `Exchanged` specifies, and the session holds the history |
| Server.ChatServer.ToolLoop | src/server.js:435-462 | the while loop does what `Converse` specifies, and the session holds the history after every round |
| Server.ChatServer.ToolRound | src/server.js:436-452 | one round appends `Round`'s two messages to the session and changes no other session |
| Server.ChatKeepsSessions | src/server.js:405-485 | a chat request never removes a session: each one it found keeps its creation time and its history is a prefix of the new one |
| Server.SessionsNeverRemoved | src/server.js:534-542 | since nothing calls `cleanExpiredSessions`, after any run of requests served with the server's own tools (`Executor`) every earlier session is still there, with the same creation time and a history that only grew |
| Server.Unexpired | src/server.js:534-542 | a session is kept exactly when it is not older than two hours, and kept unchanged |
| Server.SweepIdempotent | src/server.js:534-542 | a second sweep at the same time removes nothing more |
| Server.ExpiredAfterChat | src/server.js:534-542 | a session created more than two hours before a sweep is gone after it, whatever chat requests used it (age is from creation) |
| Server.ChatServer.Sweep | src/server.js:534-542 | deleting entry by entry leaves exactly the unexpired sessions |
| Server.StripeWebhook | src/server.js:491-508 | the webhook route; stated by the three lemmas below |
| Server.WebhookRejectsBadSignature | src/server.js:491-502 | a body whose signature fails is answered 400 and no order changes |
| Server.WebhookHandlesVerified | src/server.js:504-507 | a verified event is handled; the route answers 200 `{received: true}` unless the handler's rejection escapes |
| Server.WebhookChangesOnlyOnEvents | src/server.js:491-508 | only a verified checkout-completion or payment-failure event can change an order |

## Left out

- The language model, WooCommerce's REST API and Stripe's API are inputs.
  - The model's answers are a finite script.
  - The REST and Stripe answers are functions from request to answer.
  - No request is sent, timed or retried, and the requests' fixed parameters are not represented (paging, search terms, payment methods, locale, currency, tax).
- Server.HandleChat: when the script runs out while the model still asks for tools, the request ends as `Unfinished`. The server would keep calling the model.
- Server.ChatServer.Chat: takes the tool runner as a parameter instead of calling `executeTool` directly. The server's runner is `Server.Executor(b)`. This keeps the services' definitions out of the chat proofs.
- Server.HandleChat: `Date.now()` is read twice in the source, once for the id and once for `created_at`. The model uses one reading, `now`.
- Tool results are kept as structured `Tools.ToolOutput` values. The `JSON.stringify` of each result is not modelled.
- A request body that is not an object (destructuring throws, answered 500) is not modelled. The body is a map.
- Exceptions thrown by a tool outside the services' own `try` blocks are not modelled.
- Logging (`console.log`/`console.error`) is left out.
- `handleWebhookEvent` checks that a `wooService` was passed. The route always passes one, so the model leaves that check out.
- Server.Unexpired, Server.ChatServer.Sweep, Server.SweepIdempotent and Server.ExpiredAfterChat: they model `cleanExpiredSessions` as if something called it. Nothing in the server does (there is no `setInterval` and no call), so they describe a sweep the running server never makes; its actual behaviour is `Server.SessionsNeverRemoved`.
- Concurrency is left out: requests run one at a time, and two requests for the same session do not interleave.
- Values.StringToNumber: reads decimal integers and `0x` hexadecimal only. `Number` also reads `1e1`, `0b1`, `0o7`, `Infinity` and fractions, which the model reads as NaN. This affects a `quantity` compared in the order gate and an `age` compared in the camp filter when given in those forms.
- Tools.ExecuteTool: the services' answers are fixed for a whole chat request. An order posted by one tool call does not lower the stock that a later call in the same request sees, for example a second `create_booking` for the last place.
- Stripe.HandleWebhookEvent: requires that the shop accept an update only for an order it holds (`Stripe.KnownOrderUpdate`). An update for an unknown id is a refused update, so the route never creates an order.
- Numbers are integers. Prices and amounts are opaque values and floating point is not modelled. `new Date(start_date).getMonth()` is an input function (`startMonth`).
- The FAQ texts are held by the constructors of `Tools.FaqEntry`, through `Question` and `Answer`. The `{q, a}` objects are not built.
- `createRefund`, the widget, the landing page, the health route and `/api/camps` are not part of this model.
- Object-literal lookups in the corrected members read only the table's own entries. The as-written behaviour is kept beside them (see Findings).

## Findings

| source | as written | input that shows it | evidently intended | confidence | as-written member | corrected member |
|---|---|---|---|---|---|---|
| src/server.js:390 | `faqs[topic]` also finds members every object inherits | topic `"constructor"`: the answer's `faqs` is the `Object` function, no FAQ entry | an unknown topic answers the full list | low, not executed | Tools.FaqInheritedTopic | Tools.GetFaqOtherTopic |
| src/services/woocommerce.js:225 | `statusMap[order.status]` also finds inherited members | status `"constructor"`: the label is a function, not the status | an unknown status is shown as itself | low, not executed | WooCommerce.OrderStatusInheritedLabel | WooCommerce.OrderStatusLabel |
| src/services/stripe.js:316 | `statusMap[session.status]` also finds inherited members | status `"toString"`: the label is a function, not the status | an unknown status is shown as itself | low, not executed | Stripe.SessionStatusInheritedLabel | Stripe.SessionStatusLabel |
