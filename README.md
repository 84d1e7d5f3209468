# WhatsApp store bot: dispatcher and catalog

A Dafny model of the conversational core of a WhatsApp shop bot. The bot gets
one inbound message per webhook delivery. A free-text message always gets the
main menu. A button or list selection carries an id, and a flat routing table
with first-match-wins rules turns that id into zero, one or two outbound
messages. The outbound messages are plain texts, button prompts and list
prompts. The catalog is static: products grouped by category, and FAQ
answers keyed by topic id.

Modules:

- `Wrappers` (wrappers.dfy): `Option`, standing in for `undefined`/`null`.
- `Strings` (strings.dfy): the JavaScript string operations the bot uses:
  `startsWith`, `indexOf`, `replace` with a string pattern (first occurrence
  only), `trim` (the full ECMAScript white-space and line-terminator set) and
  `toLowerCase` (Latin letters only).
- `Catalog` (catalog.dfy): `PRODUCTS` as an ordered sequence of categories,
  and `FAQ_ANSWERS` as a map. `findProduct` is a method with the source's
  loop over categories and early return. It is proved against the function
  `Find`, which functions and lemmas use in its place.
- `Messages` (messages.dfy): the payload datatypes, one pure builder per
  `send…` helper, and `Gateway`, an outbox class. It replaces the HTTP call
  in `sendMessage`: sending appends the payload to `sent`.
- `Dispatcher` (dispatcher.dfy): `Route`, the routing table as a function
  from id to action; `Perform`, the messages an action sends; and
  `Replies`, everything sent for one inbound message. `HandleMessage` is
  `handleMessage` as a method. It has the source's branches (including the
  greeting test, which makes no difference), early returns and ordered sends.
  Its contract is that exactly `Replies(message)` is appended to the gateway.
- `DispatcherProperties` (properties.dfy): the lemmas about routing: the
  silent cases, rule precedence, prefix stripping, send counts, lookup round
  trips, the button limit and routing closure.
- `Webhook` (webhook.dfy): the subscription handshake decision, the
  extraction of `entry[0].changes[0].value.messages[0]`, and the POST
  handler, which acknowledges with 200 and then dispatches.

For an unknown product the order confirmation interpolates `p?.name`, which
JavaScript renders as `undefined`. `OrderConfirmationText` takes the name as
an `Option` and renders `None` as `MissingValue` (`"undefined"`).

A text message without `text.body` makes `trim()` throw in the source. The
POST handler's `catch` swallows the error, so nothing is sent.
`HandleMessage` reports this case through its `threw` result, and `Replies`
gives no messages for it.

## Model

| member | source | states |
|---|---|---|
| `Strings.StartsWith` | whatsapp-bot/src/index.js:200 | holds exactly when the prefix fits and agrees with the string character by character |
| `Strings.IndexOf` | whatsapp-bot/src/index.js:210 | the position returned holds an occurrence of the pattern and no earlier position does; not-found means the pattern occurs nowhere |
| `Strings.ReplaceFirst` | whatsapp-bot/src/index.js:210 | with no occurrence the string is unchanged; otherwise the text before the first occurrence is kept, the replacement follows, then the text after the occurrence |
| `Strings.ReplaceFirstStripsPrefix` | whatsapp-bot/src/index.js:209-210 | when the string starts with the pattern, `replace(pattern, "")` leaves exactly the rest after the prefix |
| `Strings.TrimStart` | whatsapp-bot/src/index.js:187 | the result is a suffix of the input, starts with no white space, and everything removed was white space |
| `Strings.TrimEnd` | whatsapp-bot/src/index.js:187 | the result is a prefix of the input, ends with no white space, and everything removed was white space |
| `Strings.Trim` | whatsapp-bot/src/index.js:187 | the result is a contiguous piece of the input, everything removed before and after it is white space, and it has no white space at either end |
| `Strings.LowerAscii` | whatsapp-bot/src/index.js:187 | same length; each Latin capital becomes its small letter and every other character is kept |
| `Catalog.ItemsOf` | whatsapp-bot/src/index.js:117 | the products of the category with that key, and the empty list for a key no category has |
| `Catalog.FirstWithId` | whatsapp-bot/src/index.js:131 | a found product is in the list and has the id; not-found exactly when no product in the list has it |
| `Catalog.FirstWithIdIsFirst` | whatsapp-bot/src/index.js:131 | the product found is the first in the list with that id |
| `Catalog.Find` | whatsapp-bot/src/index.js:129-135 | the search returns a product of the categories with the requested id, or not-found exactly when none has it, without failing |
| `Catalog.FindProduct` | whatsapp-bot/src/index.js:129-135 | the category loop returns the first match across categories; a found product is in the catalog with the requested id; null exactly when no catalog product has it |
| `Catalog.FindIsFirstInFlatten` | whatsapp-bot/src/index.js:129-135 | searching category by category is the same as searching all products in catalog order |
| `Catalog.FirstWithIdRoundTrip` | whatsapp-bot/src/index.js:129-135 | in a list with unique ids every product is found under its own id |
| `Catalog.CatalogIdsUnique` | whatsapp-bot/src/index.js:11-40 | no two products of the catalog share an id |
| `Catalog.CatalogIdsArePrefixed` | whatsapp-bot/src/index.js:11-40 | every catalog id starts with `prod_` |
| `Catalog.FindRoundTrip` | whatsapp-bot/src/index.js:129-135 | `findProduct(p.id)` is `p` for every catalog product |
| `Catalog.ProductAndFaqIdsDisjoint` | whatsapp-bot/src/index.js:166-175 | no product id is an FAQ key, so the two never compete in the routing table |
| `Messages.TextMessage` | whatsapp-bot/src/index.js:57-64 | a text payload to the recipient, carrying the text and offering no ids |
| `Messages.ButtonMessage` | whatsapp-bot/src/index.js:67-83 | a button prompt to the recipient whose offered ids are the buttons' ids in the order given |
| `Messages.ListMessage` | whatsapp-bot/src/index.js:86-97 | a list prompt to the recipient with the given sections, offering their row ids section by section |
| `Messages.MainMenu` | whatsapp-bot/src/index.js:100-106 | a button prompt offering `menu_products`, `menu_faq`, `menu_agent` in that order |
| `Messages.ProductCategories` | whatsapp-bot/src/index.js:109-114 | a button prompt offering `cat_electronics` then `cat_accessories` |
| `Messages.ProductRow` | whatsapp-bot/src/index.js:118-122 | the row's id is the product id, its title the name, its description the price and the description joined by a spaced bar |
| `Messages.ProductRows` | whatsapp-bot/src/index.js:118-122 | one row per product, in the products' order |
| `Messages.ProductList` | whatsapp-bot/src/index.js:116-126 | a list prompt with exactly one section whose rows are the category's products |
| `Messages.DetailText` | whatsapp-bot/src/index.js:140 | the card body contains the product's name, price and description |
| `Messages.DetailCard` | whatsapp-bot/src/index.js:140-143 | the card's body presents the product and it offers `order_<id>` then `menu_products` |
| `Messages.ProductDetail` | whatsapp-bot/src/index.js:137-144 | exactly one message: the card with `order_<id>`, `menu_products` for a catalog id, otherwise the not-found text |
| `Messages.FaqList` | whatsapp-bot/src/index.js:147-164 | a list prompt with two sections of two rows, offering the four FAQ ids in order |
| `Messages.FaqFollowUp` | whatsapp-bot/src/index.js:204-207 | a button prompt offering `menu_faq` then `menu_products` |
| `Messages.OrderConfirmationText` | whatsapp-bot/src/index.js:212-215 | the confirmation contains the product's name, or the `undefined` marker when the product is missing |
| `Messages.OrderFollowUp` | whatsapp-bot/src/index.js:217-220 | a button prompt offering `menu_products` then `menu_agent` |
| `Messages.Gateway.constructor` | whatsapp-bot/src/index.js:43-54 | a fresh outbox has sent nothing |
| `Messages.Gateway.Send` | whatsapp-bot/src/index.js:43-54 | sending appends exactly that message to what has been sent |
| `Dispatcher.SelectedId` | whatsapp-bot/src/index.js:183-185 | the button reply id unless it is missing or empty, otherwise the list reply id |
| `Dispatcher.Route` | whatsapp-bot/src/index.js:197-227 | each action carries what its rule derived from the id: a catalog category, the full `prod_` id, the FAQ key, or the `order_` id without its prefix; precedence is stated by `IgnoredIff`, `ProductRule`, `FaqIdsReachFaqRule`, `OrderIdsReachOrderRule` |
| `Dispatcher.Perform` | whatsapp-bot/src/index.js:197-227 | an action sends at most two messages, all to the given recipient, and none only when nothing matched |
| `Dispatcher.Replies` | whatsapp-bot/src/index.js:178-228 | the replies to one message are at most two and all go to its sender; the silent cases, the text rule and closure are stated by `SilentIff`, `TextGetsMainMenu`, `RoutingClosure` |
| `Dispatcher.SendProductDetail` | whatsapp-bot/src/index.js:137-144 | sends exactly `ProductDetail(to, id)`, using the `findProduct` loop |
| `Dispatcher.HandleMessage` | whatsapp-bot/src/index.js:178-228 | appends exactly `Replies(message)` to the outbox, whatever the greeting test says; reports the throwing case of a body-less text |
| `Dispatcher.Dispatch` | whatsapp-bot/src/index.js:196-227 | the chain of routing tests sends exactly what the first matching rule of `Route` sends |
| `Dispatcher.SendFaqAnswer` | whatsapp-bot/src/index.js:202-208 | sends the stored answer, then the follow-up prompt |
| `Dispatcher.SendOrderConfirmation` | whatsapp-bot/src/index.js:209-221 | sends the confirmation naming the looked-up product, or marking it missing, then the follow-up prompt |
| `Dispatcher.RoutedId` | whatsapp-bot/src/index.js:182-194 | a structured reply whose selected id is non-empty is routed on exactly that id; a missing or empty id, a text and any other kind are not routed |
| `DispatcherProperties.TextGetsMainMenu` | whatsapp-bot/src/index.js:186-192 | every text message with a body gets exactly one message: the main menu with `menu_products`, `menu_faq`, `menu_agent` |
| `DispatcherProperties.IgnoredIff` | whatsapp-bot/src/index.js:197-227 | an id falls through every rule exactly when it is none of the exact ids, has neither prefix and is not an FAQ key |
| `DispatcherProperties.PerformSilentIff` | whatsapp-bot/src/index.js:197-227 | every matched rule sends at least one message; only the fall-through sends none |
| `DispatcherProperties.SilentIff` | whatsapp-bot/src/index.js:182-194 | nothing is sent exactly for a body-less text, another message type, a reply without a usable id, or an id no rule matches |
| `DispatcherProperties.CategoriesRule` | whatsapp-bot/src/index.js:197-199 | `menu_products` gets one prompt offering `cat_electronics` then `cat_accessories`, each routed to the product list of a category the catalog has |
| `DispatcherProperties.CategoryListRule` | whatsapp-bot/src/index.js:198-199 | each category id gets one list prompt whose single section lists that category's products in catalog order |
| `DispatcherProperties.UnknownCategoryListsNothing` | whatsapp-bot/src/index.js:117 | a list for a key that is no category has one section and no rows |
| `DispatcherProperties.ProductListRowsFindTheirProduct` | whatsapp-bot/src/index.js:118-122 | every row of a product list is found by its id, and its title and description come from that product |
| `DispatcherProperties.ProductRule` | whatsapp-bot/src/index.js:200 | a `prod_` id is routed to the detail rule before the FAQ and order rules; it gets one card offering `order_<id>`, `menu_products` if found, else one not-found text offering nothing |
| `DispatcherProperties.FaqIdsReachFaqRule` | whatsapp-bot/src/index.js:202 | every FAQ key reaches the FAQ rule |
| `DispatcherProperties.FaqRule` | whatsapp-bot/src/index.js:202-208 | an FAQ key gets exactly two messages: its answer text, then the prompt offering `menu_faq`, `menu_products` |
| `DispatcherProperties.FaqListMatchesAnswers` | whatsapp-bot/src/index.js:152-175 | the FAQ list offers exactly the keys of the answer table |
| `DispatcherProperties.OrderIdsReachOrderRule` | whatsapp-bot/src/index.js:209-210 | an `order_` id reaches the order rule, and the product looked up is the id without its `order_` prefix |
| `DispatcherProperties.OrderRule` | whatsapp-bot/src/index.js:209-221 | an `order_` id gets exactly two messages, found or not: the confirmation, then the prompt offering `menu_products`, `menu_agent` |
| `DispatcherProperties.OrderFromCardNamesProduct` | whatsapp-bot/src/index.js:141 | ordering from a product card confirms that very product, by name |
| `DispatcherProperties.AgentRule` | whatsapp-bot/src/index.js:222-227 | `menu_agent` gets the hand-off text alone |
| `DispatcherProperties.ProductListIdsArePrefixed` | whatsapp-bot/src/index.js:119 | every id a product list offers starts with `prod_` |
| `DispatcherProperties.FixedIdsRouted` | whatsapp-bot/src/index.js:197-222 | each fixed menu id is matched by its own exact rule |
| `DispatcherProperties.ProductListOffersRoutedIds` | whatsapp-bot/src/index.js:119 | every id of a product list is matched by a rule |
| `DispatcherProperties.ProductDetailOffersRoutedIds` | whatsapp-bot/src/index.js:141-142 | both ids of a product card are matched by a rule |
| `DispatcherProperties.FaqListOffersRoutedIds` | whatsapp-bot/src/index.js:152-159 | every FAQ list id is matched by a rule |
| `DispatcherProperties.PerformClosed` | whatsapp-bot/src/index.js:197-227 | whatever action runs, every id its messages offer is matched by a rule |
| `DispatcherProperties.PerformWithinButtonLimit` | whatsapp-bot/src/index.js:67-83 | every button prompt an action sends has one to three buttons |
| `DispatcherProperties.RoutingClosure` | whatsapp-bot/src/index.js:178-228 | every id the bot offers in any reply is matched by some rule when tapped |
| `DispatcherProperties.ButtonPromptsWithinLimit` | whatsapp-bot/src/index.js:100-106 | every button prompt the bot sends has one to three buttons |
| `Webhook.ConfiguredVerifyToken` | whatsapp-bot/src/index.js:8 | the configured token is the variable when it is set and non-empty, `my_verify_token` when it is unset or empty, and never empty |
| `Webhook.Verify` | whatsapp-bot/src/index.js:235-240 | 200 with the challenge exactly when the mode is `subscribe` and the token matches; 403 otherwise |
| `Webhook.MissingTokenRejected` | whatsapp-bot/src/index.js:235 | a request with no token or an empty one is always refused |
| `Webhook.FirstMessage` | whatsapp-bot/src/index.js:247-251 | a message exactly when every step of the path exists and the message list is non-empty, and then it is the first message |
| `Webhook.DeliveryReplies` | whatsapp-bot/src/index.js:250-253 | a delivery gets at most two messages, only when it holds a first message, and all go to that message's sender |
| `Webhook.ReceiveDelivery` | whatsapp-bot/src/index.js:244-257 | answers 200 and sends exactly the replies to the first message, or nothing |
| `Webhook.OnlyFirstMessageAnswered` | whatsapp-bot/src/index.js:250-252 | messages after the first in a delivery get no replies |

The catalog's tables are constants, not members:

- `Catalog.Products` (whatsapp-bot/src/index.js:11-40): its ids are unique and prefixed by `CatalogIdsUnique` and `CatalogIdsArePrefixed`,
  and every product is found under its id by `FindRoundTrip`.
- `Catalog.FaqAnswers` (whatsapp-bot/src/index.js:166-175): its keys are the FAQ list's ids by `FaqListMatchesAnswers`, and each key reaches the FAQ rule by
  `FaqIdsReachFaqRule`.
- `Messages.FaqSections` (whatsapp-bot/src/index.js:149-162): its shape and ids are stated by `FaqList`.

## Left out

- The Express server: route registration, `app.listen`, the health route at `/` and the environment variables `WHATSAPP_TOKEN`, `PHONE_NUMBER_ID`, `PORT`. These are transport plumbing. `VERIFY_TOKEN` is a parameter of `ConfiguredVerifyToken`.
- The HTTP POST in `sendMessage`: a network call. It is replaced by appending to `Gateway.sent`, and the URL, bearer header and JSON encoding are not modelled.
- Gateway failures: every send succeeds. In the source a failed first send stops the second, and the error is caught and logged.
- Constant wire fields: `messaging_product: "whatsapp"`, `interactive.type` and the `type: "reply"` wrapper around each button. The `Payload` variant stands for them.
- Async/await: the awaited sends are modelled as sequential appends. Logging with `console.log`/`console.error` has no effect on the outcome and is not modelled.
- The prototype chain: in the source `"toString" in FAQ_ANSWERS` is true. The model treats FAQ membership and `PRODUCTS[key]` as own keys only.
- Non-string ids: a numeric or object id would make `startsWith` throw. The model types every id as a string.
- `Strings.LowerAscii`: does not model Unicode case mapping beyond A to Z. Since both text branches send the main menu, the outcome cannot depend on it.
- `Strings.ReplaceFirst`: does not interpret `$` patterns in the replacement string. The bot only ever replaces with the empty string.
- Express's body for an absent challenge: `Verify` passes the challenge through as an `Option`.
