# Robokassa payment links and result verification, in Dafny

A Telegram bot sells Adobe Creative Cloud subscriptions and takes payment through the
Robokassa gateway. This project models the payment-facing core of that bot.

- **Link signers.** There are three: the message-processing tool, the menu-response tool and
  the stand-alone link tool. Each looks the chosen subscription up in a price table, throws
  on an unknown key, and derives an order id. It signs `login:amount:orderId:password1` with
  MD5 in lowercase hex and assembles the query of a link to the Robokassa payment page.
  - The two `append`-style signers use the order id `userId_millis`. They send `IsTest` and
    append the `Shp_*` parameters without signing them.
  - The menu-response signer uses the whole Unix seconds as the order id. It sends neither
    `IsTest` nor any `Shp_*` parameter.
- **Menu dispatcher.** Both bot tools lower-case and trim the incoming message. They then
  take the first matching test in this order:
  1. start or menu
  2. anything mentioning "adobe"
  3. the stable screen
  4. a `buy_stable_*` button, whose key is the message without its leading `buy_`
  5. the default reply

  The message-processing tool sends the screen and tells the manager about a new order. The
  menu-response tool returns the reply and the order details instead.
- **Result callback** (`POST /api/robokassa/result`). The handler works in these steps:
  1. It pushes the truthy `Shp_*` fields as `name=value` strings and sorts them.
  2. It builds `OutSum:InvId:password2:<shp joined by ":">` and hashes it with MD5.
  3. It compares the upper-cased digest with the upper-cased claimed `SignatureValue`.
  4. On a match it answers `OK<InvId>`; otherwise it answers 400 `Invalid signature`.
  5. An accepted payment is announced to the manager chat when `MANAGER_CHAT_ID` is set.

The model uses the following representations:

- **MD5.** The hex MD5 digest is a parameter `md5: string -> HexDigest` (32 lowercase hex
  characters). Only the shape of Node's hex digest is assumed; no other property of MD5 is.
- **Environment and clock.** `process.env` is a `map<string, string>` and `Date.now()` is the
  parameter `nowMs`.
- **Query and URL.** A query is the ordered list of its name/value pairs. `URLSearchParams`
  is a class whose `Append` grows that list in place. A link is its base URL plus its pair
  list (`PaymentUrl`).
- **Request body.** The callback body is a map from field names to strings. A missing field
  interpolates as `undefined`.
- **Telegram sends.** They become values: the `Effect` list of the message-processing tool,
  and the `ManagerNotice` of the result handler. Whether the callback's send fails is the
  parameter `sendFails`; whether the bot's announcement of a new order rejects is
  `notifyFails`.

The modules follow the source files:

- `Values`: JavaScript values.
- `Text`: the string operations used.
- `Sorting`: `Array.prototype.sort` on strings.
- `Robokassa`: what the signers share.
- `Menu`: the shared price table and classifier.
- `BotLogic`: `telegramBotLogic`.
- `MenuResponse`: `getMenuResponse`.
- `LinkTool`: `generateRobokassaLink`.
- `ResultRoute`: the result handler of `server/routes.ts`.

Where the code and the intended protocol differ, the model follows the code:

- The result handler falls back from `ROBOKASSA_PASSWORD2` to `ROBOKASSA_PASSWORD1` and then
  to `""`. Its verifying secret is therefore not always distinct from the signing one.
- The handler signs the `Shp_*` fields and always writes the separator before them. No signer
  puts them into its signature.
- The announcement to the manager is awaited inside the handler's `try`. A failing send
  therefore changes the gateway-facing answer (see Findings).
- The message-processing tool awaits its announcement of a new order without a `catch`. A
  failing announcement therefore keeps the payment link from the customer (see Findings).

## Model

| member | source | states |
|---|---|---|
| `Text.DecimalRoundTrip` | attached_assets/telegramBotLogic_1769971670936.ts:19-20 | the decimal rendering of a number (`${Date.now()}`, `amount.toString()`) is non-empty, all digits, and parses back to the number |
| `Text.DecimalInjective` | attached_assets/getMenuResponse_1769971670936.ts:19-32 | different numbers never render as the same decimal string |
| `Sorting.LexLeqTotal` | server/routes.ts:40 | any two strings are comparable in the sort's order |
| `Sorting.LexLeqAntisymmetric` | server/routes.ts:40 | strings ordered both ways are equal |
| `Sorting.LexLeqTransitive` | server/routes.ts:40 | the sort's order is transitive |
| `Sorting.SortInPlace` | server/routes.ts:40 | `shpParams.sort()` leaves the array ordered and a permutation of what it held |
| `Sorting.SortedPermutationUnique` | server/routes.ts:40 | two sorted arrangements of the same strings are equal, so the sort's result is determined by the multiset alone |
| `Robokassa.QueryParams.constructor` | attached_assets/telegramBotLogic_1769971670936.ts:29-37 | `new URLSearchParams({...})` holds the record's pairs in order |
| `Robokassa.QueryParams.Append` | attached_assets/telegramBotLogic_1769971670936.ts:39-41 | `append` adds one pair at the end and keeps every earlier pair |
| `Robokassa.CompositeOrderIdRoundTrip` | attached_assets/telegramBotLogic_1769971670936.ts:19 | the order id `userId_millis` splits at its last `_` back into the customer id and the clock, whatever the customer id contains |
| `Robokassa.CompositeOrderIdDistinct` | attached_assets/generateRobokassaLink_1769971670936.ts:42 | one customer's orders at different instants get different order ids |
| `Robokassa.AppendedQueryReadsBack` | attached_assets/telegramBotLogic_1769971670936.ts:29-41 | every value of the seven fixed pairs and the `Shp_*` pairs reads back under its own name; `Shp_userName` is present exactly for a truthy user name; the query has 10 or 9 pairs |
| `Robokassa.SignedQueryReadsBack` | attached_assets/telegramBotLogic_1769971670936.ts:19-41 | `InvId` is `userId_millis` and splits back; `SignatureValue` is the MD5 of `login:amount:orderId:password1` with "demo" defaults and no `Shp_*` value; `IsTest` is "1" iff test mode and "0" otherwise; `Culture` is `ru` |
| `Menu.NormalizeIdempotent` | attached_assets/telegramBotLogic_1769971670936.ts:123 | lower-casing and trimming an already normalised message changes nothing |
| `Menu.AdobeIsSubstringTest` | attached_assets/telegramBotLogic_1769971670936.ts:149 | the adobe test holds exactly when the message contains "adobe" |
| `Menu.BuyIntent` | attached_assets/telegramBotLogic_1769971670936.ts:188-189 | a message is a purchase iff no earlier test matches and it starts with `buy_stable_`; the key is the message without its first four characters and starts with `stable_` |
| `Menu.ActionOrder` | attached_assets/telegramBotLogic_1769971670936.ts:123-223 | first match wins: start/menu, then "adobe", then stable; the payment link is chosen iff the message is a purchase whose key is in the price table; an unknown key, and a message no test matches, get the default reply |
| `Menu.PurchaseButtonsReachPaymentLink` | attached_assets/telegramBotLogic_1769971670936.ts:178-193 | every `buy_` + price-table key button of the stable screen, lower-cased and trimmed as `execute` does, leads to a payment link |
| `BotLogic.GenerateLink` | attached_assets/telegramBotLogic_1769971670936.ts:13-48 | an unknown key is an error with no link; a known key gives the link built from the catalog price, the clock and the environment |
| `BotLogic.LinkForReadsBack` | attached_assets/telegramBotLogic_1769971670936.ts:19-47 | the link targets the Robokassa page; the returned amount is the catalog price and the URL's `OutSum`; the returned order id is the URL's `InvId` and splits into customer id and clock |
| `BotLogic.Execute` | attached_assets/telegramBotLogic_1769971670936.ts:117-224 | the tool's outcome is `Answer` for the normalised message, the environment and whether the manager announcement's `fetch` rejects |
| `BotLogic.AnswerScreens` | attached_assets/telegramBotLogic_1769971670936.ts:123-223 | every reply is `success: true` with the classifier's action; every screen but the payment link is always replied and sends exactly one menu |
| `BotLogic.PaymentAnswer` | attached_assets/telegramBotLogic_1769971670936.ts:77-99 | on a purchase, the manager is told first, with the order id, key and amount of the link; the tool gives no reply iff bot token and manager chat are both set and the `fetch` rejects, and otherwise sends the menu with that link |
| `BotLogic.NotifyFailureLosesLink` | attached_assets/telegramBotLogic_1769971670936.ts:192-212 | as written, a rejected announcement leaves a valid purchase with no reply and no payment menu |
| `BotLogic.IsolatedLinkAlwaysSent` | attached_assets/telegramBotLogic_1769971670936.ts:192-212 | with the announcement isolated, every message gets a successful reply with its action, and a purchase always ends with the menu carrying its link |
| `MenuResponse.LiteralQueryReadsBack` | attached_assets/getMenuResponse_1769971670936.ts:29-36 | the query is exactly the six pairs MerchantLogin, OutSum, InvId, Description, SignatureValue, Culture=`ru`, each reading back its value, with no `IsTest` and no `Shp_*` |
| `MenuResponse.GenerateLinkShape` | attached_assets/getMenuResponse_1769971670936.ts:13-43 | unknown key iff error; otherwise the order id is the clock in whole seconds and reads back from `InvId`; the amount is the price; the description is `description - period`; the signature covers login, amount, seconds and password1 with "" defaults |
| `MenuResponse.ReplyScreens` | attached_assets/getMenuResponse_1769971670936.ts:80-186 | the reply's action is the classifier's; only the welcome reply has a photo; `notifyManager`, order details and a pay button appear exactly on the payment-link reply |
| `MenuResponse.PaymentDetails` | attached_assets/getMenuResponse_1769971670936.ts:146-174 | a payment-link reply's details carry the key without `buy_`, the whole seconds and the price; its pay button is the generated link, whose order id and amount are those same values |
| `LinkTool.EnumIsCatalog` | attached_assets/generateRobokassaLink_1769971670936.ts:18-19 | the input enum admits exactly the price table's keys |
| `LinkTool.BaseUrl` | attached_assets/generateRobokassaLink_1769971670936.ts:53-55 | the base URL is the same Robokassa page in test mode and in production |
| `LinkTool.Execute` | attached_assets/generateRobokassaLink_1769971670936.ts:31-83 | an unknown key is an error with no link; a known key gives the output record built from the catalog entry, the clock and the environment |
| `LinkTool.Run` | attached_assets/generateRobokassaLink_1769971670936.ts:17-40 | input outside the enum is refused before `execute`; input inside it always yields a link, never the `throw` |
| `LinkTool.OutputMatchesLink` | attached_assets/generateRobokassaLink_1769971670936.ts:42-82 | the returned order id, amount and description are the URL's `InvId`, `OutSum` and `Description`, taken from the catalog; the order id splits into customer id and clock |
| `ResultRoute.DisplayLabel` | server/routes.ts:52 | a known subscription shows its non-empty label; anything else, including an absent field ("undefined"), shows itself |
| `ResultRoute.LabelsCoverCatalog` | server/routes.ts:8-13 | every key the bot sells has a label naming the catalog's period |
| `ResultRoute.Password2FallsBack` | server/routes.ts:34 | the verifying secret is `ROBOKASSA_PASSWORD2` if non-empty, else `ROBOKASSA_PASSWORD1` if non-empty, else `""` |
| `ResultRoute.ShpPushListContents` | server/routes.ts:36-39 | the list holds `Shp_subscriptionType=…`, `Shp_userId=…`, `Shp_userName=…` exactly for the truthy fields and nothing else |
| `ResultRoute.ShpEntriesOrdered` | server/routes.ts:37-39 | the three entry forms are in sort order whatever their values |
| `ResultRoute.ShpPushListSorted` | server/routes.ts:36-40 | the push order is already sorted |
| `ResultRoute.CollectShpParams` | server/routes.ts:36-40 | push-then-sort yields a sorted permutation of the pushed entries, namely the push list itself |
| `ResultRoute.ShpJoinIndependentOfOrder` | server/routes.ts:40-42 | any sorted arrangement of the same entries joins to the same string, so the order of the pushes does not matter |
| `ResultRoute.CheckStringTrailingSeparator` | server/routes.ts:42 | with no `Shp_*` field the check string still ends in `:` |
| `ResultRoute.CheckStringAllShp` | server/routes.ts:36-42 | with all three fields the check string is `OutSum:InvId:password2:Shp_subscriptionType=…:Shp_userId=…:Shp_userName=…` |
| `ResultRoute.UpperCharMatchesHex` | server/routes.ts:43-45 | only a hex digit and its upper-case form upper-case to that digit's upper-case form |
| `ResultRoute.AcceptedIffCaseVariant` | server/routes.ts:43-45 | a claim matches the upper-cased digest iff it is present and spells the digest in some mix of letter cases |
| `ResultRoute.MissingSignatureRejected` | server/routes.ts:45 | a missing or empty `SignatureValue` is always rejected |
| `ResultRoute.SelfSignedAccepted` | server/routes.ts:42-45 | a body carrying the handler's own signature of itself, in any letter case, is accepted |
| `ResultRoute.HandleResult` | server/routes.ts:30-68 | the handler's outcome is the as-written `Respond` for the body, environment and send result |
| `ResultRoute.AckIffAccepted` | server/routes.ts:45-64 | whatever the send does: a mismatched signature gets 400 `Invalid signature` and no announcement; an accepted payment is announced exactly when a manager chat is set, and with no chat is answered `OK<InvId>`; when the send succeeds, `OK<InvId>` iff the signature matches |
| `ResultRoute.SendFailureWithholdsAck` | server/routes.ts:48-68 | as written, a failed announcement of an accepted payment turns the answer into 500 `Error`, without `OK` |
| `ResultRoute.IsolatedAckIffAccepted` | server/routes.ts:48-68 | with the announcement isolated, `OK<InvId>` iff the signature matches, whether or not the send fails |

## Left out

- MD5 (RFC 1321) and Node's hex digest are a parameter. Injectivity is not assumed, so "changing any signed field makes the callback rejected" is not stated.
- A signer/verifier round trip is not stated. It is false for this code: the secrets differ, only the verifier signs `Shp_*`, and only the verifier adds the trailing separator.
- Percent-encoding and `params.toString()` are left out. A link is kept as its base URL and its ordered pairs.
- `toLowerCase`/`toUpperCase` are modelled for ASCII and the basic Cyrillic block only. Length-changing mappings such as `ß` → `SS` are not modelled.
- ResultRoute.AcceptedIffCaseVariant: holds for the modelled case mapping only. With JavaScript's full mapping, `"ﬀ".toUpperCase()` is `"FF"`, so a shorter claim writing `ﬀ` where the digest has `ff` is also accepted.
- `trim` is modelled with the JavaScript white-space set.
- The sort compares characters as code points, where JavaScript compares UTF-16 code units. The two orders agree on the ASCII entries the handler builds from ASCII fields.
- `Number.prototype.toString` is modelled as plain decimal. It is exact below 10^21, which covers prices and millisecond clocks.
- The text of every message, the keyboards and `parse_mode` are left out.
- Telegram's `fetch` calls and `sendTelegramMessage`'s boolean are left out. Effects are calls of `sendTelegramMessage` and `notifyManager`, not deliveries. `sendTelegramMessage` catches its own failures, so only `notifyManager`'s failure is modelled, as `notifyFails`. `notifyManager` calls `fetch` only when both `TELEGRAM_BOT_TOKEN` and `MANAGER_CHAT_ID` are set (`ManagerConfigured`).
- Logger and `console` calls are left out.
- The result handler's `catch` → 500 path is left out for runtime errors other than the failed send. An example is a JSON body whose `SignatureValue` is not a string.
- Keys inherited from `Object.prototype` (`constructor`, …) in the price and label tables are left out. Purchase keys start with `stable_`, so none of them can be such a key. In the labels they only affect display.
- The `/success` and `/fail` pages, the greetings route, `server/bot.ts` and `client/src/pages/Home.tsx` are not part of this model.
- Duplicate deliveries of one invoice are not tracked, because the handler is stateless. Each callback is modelled on its own.
- zod's checks of `userId` and `userName` are carried by the parameter types. Only the `subscriptionType` enum is modelled.

## Findings

| source | as written | input that shows it | evidently intended | confidence | as-written member | corrected member |
|---|---|---|---|---|---|---|
| server/routes.ts:48-68 | `await bot.sendMessage(...)` to the manager runs inside the `try`; when it throws, the `catch` answers 500 `Error` | a correctly signed result body, `MANAGER_CHAT_ID` set, and a Telegram send that fails (blocked bot, network error) | the announcement is best-effort and only logged on failure; the gateway still receives `OK<InvId>` so it stops retrying | medium, not executed | `ResultRoute.SendFailureWithholdsAck` | `ResultRoute.IsolatedAckIffAccepted` |
| attached_assets/telegramBotLogic_1769971670936.ts:192-212 | `await notifyManager(...)` runs before the payment menu is sent, and its `fetch` (lines 93-97) has no `catch`; when it rejects, `execute` rejects | a `buy_stable_1m` button press with `TELEGRAM_BOT_TOKEN` and `MANAGER_CHAT_ID` set and the manager's `fetch` failing (network error) | the manager announcement is best-effort; the customer still receives the payment menu and the tool reports `payment_link` | medium, not executed | `BotLogic.NotifyFailureLosesLink` | `BotLogic.IsolatedLinkAlwaysSent` |
