/** The message-processing tool of the Telegram bot: it classifies a message,
    answers with a menu screen, and for a `buy_stable_*` button builds a signed
    Robokassa link (order id `userId_millis`, lowercase MD5 over
    `login:amount:orderId:password1`, `Shp_*` parameters appended but not signed)
    and tells the manager about the new order. */
module BotLogic {
  import opened Values
  import opened Text
  import opened Robokassa
  import opened Menu

  /** What `generateRobokassaLink` returns. */
  datatype BotLink = BotLink(paymentUrl: PaymentUrl, orderId: string, amount: nat)

  /** The link `generateRobokassaLink` builds for a known offer. */
  function LinkFor(subscriptionType: string, offer: Offer, userId: string, userName: Option<string>,
                   nowMs: nat, env: map<string, string>, md5: string -> HexDigest): BotLink
  {
    var query := SignedQuery(env, offer.price, offer.description, userId, userName, nowMs,
                             subscriptionType, md5);
    BotLink(PaymentUrl(Endpoint, query), CompositeOrderId(userId, nowMs), offer.price)
  }

  /** `generateRobokassaLink`: throws for a key the price table lacks, otherwise builds the
      parameters from a record and appends the `Shp_*` ones. */
  method GenerateLink(subscriptionType: string, userId: string, userName: Option<string>,
                      nowMs: nat, env: map<string, string>, md5: string -> HexDigest)
    returns (r: Result<BotLink, LinkError>)
    ensures subscriptionType !in StableCatalog ==> r == Err(UnknownSubscriptionType(subscriptionType))
    ensures subscriptionType in StableCatalog ==>
      r == Ok(LinkFor(subscriptionType, StableCatalog[subscriptionType], userId, userName, nowMs, env, md5))
  {
    if subscriptionType !in StableCatalog {
      return Err(UnknownSubscriptionType(subscriptionType));
    }
    var subscription := StableCatalog[subscriptionType];
    var orderId := CompositeOrderId(userId, nowMs);
    var amount := subscription.price;
    var merchantLogin := MerchantLogin(env, "demo");
    var password1 := Password1(env, "demo");
    var isTest := IsTest(env);
    var signatureString := SignatureInput(merchantLogin, Decimal(amount), orderId, password1);
    var signature := md5(signatureString);
    var fixed := [("MerchantLogin", merchantLogin), ("OutSum", Decimal(amount)),
                  ("InvId", orderId), ("Description", subscription.description),
                  ("SignatureValue", signature), ("IsTest", Decimal(isTest)), ("Culture", "ru")];
    var params := new QueryParams(fixed);
    if Truthy(userName) {
      params.Append("Shp_userName", userName.value);
    }
    assert params.pairs == fixed + if Truthy(userName) then [("Shp_userName", userName.value)] else [];
    params.Append("Shp_userId", userId);
    params.Append("Shp_subscriptionType", subscriptionType);
    assert params.pairs == AppendedQuery(merchantLogin, Decimal(amount), orderId,
                                         subscription.description, signature, Decimal(isTest),
                                         userName, userId, subscriptionType);
    r := Ok(BotLink(PaymentUrl(Endpoint, params.pairs), orderId, amount));
  }

  /** The link is addressed to the Robokassa endpoint, charges the catalog price, and its
      order id is the query's `InvId`, which splits back into the customer id and the clock;
      the rest of the query reads back as `SignedQueryReadsBack` states. */
  lemma LinkForReadsBack(subscriptionType: string, offer: Offer, userId: string,
                         userName: Option<string>, nowMs: nat, env: map<string, string>,
                         md5: string -> HexDigest)
    ensures var link := LinkFor(subscriptionType, offer, userId, userName, nowMs, env, md5);
      && link.paymentUrl.base == Endpoint
      && link.amount == offer.price
      && Get(link.paymentUrl.query, "InvId") == Some(link.orderId)
      && Get(link.paymentUrl.query, "OutSum") == Some(Decimal(link.amount))
      && SplitOrderId(link.orderId) == Some((userId, nowMs))
  {
    SignedQueryReadsBack(env, offer.price, offer.description, userId, userName, nowMs,
                         subscriptionType, md5);
  }

  /** A call the tool makes while answering: `sendTelegramMessage`, which catches its own
      `fetch` failures, or `notifyManager("new_order", …)`, which does not. */
  datatype Effect =
    | SendMenu(chatId: string, screen: Action, payButton: Option<PaymentUrl>)
    | NotifyNewOrder(userId: string, userName: Option<string>, orderId: string,
                     subscriptionType: string, amount: nat)

  /** The tool's output `{ success, action }`. */
  datatype ToolReply = ToolReply(success: bool, action: Action)

  /** How `execute` ends: with its reply, or with no reply when the returned promise
      rejects; and the calls it made on the way. */
  datatype Outcome = Outcome(reply: Option<ToolReply>, effects: seq<Effect>)

  /** `notifyManager` gets past its guard, and so calls `fetch`, only when both the bot
      token and the manager chat are set. */
  predicate ManagerConfigured(env: map<string, string>) {
    Truthy(Lookup(env, "TELEGRAM_BOT_TOKEN")) && Truthy(Lookup(env, "MANAGER_CHAT_ID"))
  }

  /** `execute` on the normalised message, with `fetch` in `notifyManager` abstracted to
      whether it rejects (`notifyFails`). That `fetch` is awaited without a `catch`, and
      `notifyManager` is awaited by `execute` without one, so its failure rejects `execute`
      before the payment menu is sent. */
  function Answer(msg: string, chatId: string, userId: string, userName: Option<string>,
                  nowMs: nat, env: map<string, string>, md5: string -> HexDigest,
                  notifyFails: bool): Outcome
  {
    AnswerFor(Classify(msg), chatId, userId, userName, nowMs, env, md5, notifyFails)
  }

  /** The branch of `execute` the classification selects. */
  function AnswerFor(intent: Intent, chatId: string, userId: string, userName: Option<string>,
                     nowMs: nat, env: map<string, string>, md5: string -> HexDigest,
                     notifyFails: bool): Outcome
  {
    match intent
    case Start => Outcome(Some(ToolReply(true, Welcome)), [SendMenu(chatId, Welcome, None)])
    case Adobe =>
      Outcome(Some(ToolReply(true, SubscriptionTypes)), [SendMenu(chatId, SubscriptionTypes, None)])
    case Stable => Outcome(Some(ToolReply(true, StableInfo)), [SendMenu(chatId, StableInfo, None)])
    case Buy(subscriptionType) =>
      if subscriptionType in StableCatalog then
        var link := LinkFor(subscriptionType, StableCatalog[subscriptionType], userId, userName,
                            nowMs, env, md5);
        var notify := NotifyNewOrder(userId, userName, link.orderId, subscriptionType, link.amount);
        if ManagerConfigured(env) && notifyFails then Outcome(None, [notify])
        else Outcome(Some(ToolReply(true, PaymentLink)),
                     [notify, SendMenu(chatId, PaymentLink, Some(link.paymentUrl))])
      else Outcome(Some(ToolReply(true, Default)), [SendMenu(chatId, Default, None)])
    case Unrecognized => Outcome(Some(ToolReply(true, Default)), [SendMenu(chatId, Default, None)])
  }

  /** `execute` of the message-processing tool. */
  method Execute(message: string, chatId: string, userId: string, userName: Option<string>,
                 nowMs: nat, env: map<string, string>, md5: string -> HexDigest, notifyFails: bool)
    returns (out: Outcome)
    ensures out == Answer(Normalize(message), chatId, userId, userName, nowMs, env, md5, notifyFails)
  {
    var msg := Normalize(message);
    var intent := Classify(msg);
    if intent.Start? {
      return Outcome(Some(ToolReply(true, Welcome)), [SendMenu(chatId, Welcome, None)]);
    }
    if intent.Adobe? {
      return Outcome(Some(ToolReply(true, SubscriptionTypes)), [SendMenu(chatId, SubscriptionTypes, None)]);
    }
    if intent.Stable? {
      return Outcome(Some(ToolReply(true, StableInfo)), [SendMenu(chatId, StableInfo, None)]);
    }
    if intent.Buy? && intent.subscriptionType in StableCatalog {
      var subscriptionType := intent.subscriptionType;
      var r := GenerateLink(subscriptionType, userId, userName, nowMs, env, md5);
      var link := r.value;
      var notify := NotifyNewOrder(userId, userName, link.orderId, subscriptionType, link.amount);
      if ManagerConfigured(env) && notifyFails {
        return Outcome(None, [notify]);
      }
      return Outcome(Some(ToolReply(true, PaymentLink)),
                     [notify, SendMenu(chatId, PaymentLink, Some(link.paymentUrl))]);
    }
    return Outcome(Some(ToolReply(true, Default)), [SendMenu(chatId, Default, None)]);
  }

  /** Every reply the tool gives reports success and the classifier's action; a screen
      other than the payment link is answered by exactly one menu and always replied. */
  lemma AnswerScreens(msg: string, chatId: string, userId: string, userName: Option<string>,
                      nowMs: nat, env: map<string, string>, md5: string -> HexDigest,
                      notifyFails: bool)
    ensures var out := Answer(msg, chatId, userId, userName, nowMs, env, md5, notifyFails);
      && (out.reply.Some? ==> out.reply.value == ToolReply(true, ActionFor(msg)))
      && (ActionFor(msg) != PaymentLink ==>
            out.reply.Some? && out.effects == [SendMenu(chatId, ActionFor(msg), None)])
  {
  }

  /** A payment-link message tells the manager first, with the order id, key and amount of
      the link built for the key without `buy_`; the tool replies exactly when that
      announcement does not reject, and then sends the payment menu carrying the link. */
  lemma PaymentAnswer(msg: string, chatId: string, userId: string, userName: Option<string>,
                      nowMs: nat, env: map<string, string>, md5: string -> HexDigest,
                      notifyFails: bool)
    requires ActionFor(msg) == PaymentLink
    ensures |msg| >= 4 && msg[4..] in StableCatalog
    ensures var out := Answer(msg, chatId, userId, userName, nowMs, env, md5, notifyFails);
            var key := msg[4..];
            var link := LinkFor(key, StableCatalog[key], userId, userName, nowMs, env, md5);
            var notify := NotifyNewOrder(userId, userName, link.orderId, key, link.amount);
      && (out.reply.None? <==> ManagerConfigured(env) && notifyFails)
      && (out.reply.None? ==> out.effects == [notify])
      && (out.reply.Some? ==>
            out.effects == [notify, SendMenu(chatId, PaymentLink, Some(link.paymentUrl))])
  {
    BuyIntent(msg);
  }

  /** As written, when the manager is configured and the announcement's `fetch` rejects,
      a customer who pressed a valid purchase button gets no payment menu at all, and the
      tool returns no reply; the same message is answered when the announcement succeeds. */
  lemma NotifyFailureLosesLink(msg: string, chatId: string, userId: string,
                               userName: Option<string>, nowMs: nat, env: map<string, string>,
                               md5: string -> HexDigest)
    requires ActionFor(msg) == PaymentLink && ManagerConfigured(env)
    ensures Answer(msg, chatId, userId, userName, nowMs, env, md5, true).reply == None
    ensures forall e :: e in Answer(msg, chatId, userId, userName, nowMs, env, md5, true).effects
                        ==> !e.SendMenu?
    ensures Answer(msg, chatId, userId, userName, nowMs, env, md5, false).reply
            == Some(ToolReply(true, PaymentLink))
  {
    PaymentAnswer(msg, chatId, userId, userName, nowMs, env, md5, true);
    PaymentAnswer(msg, chatId, userId, userName, nowMs, env, md5, false);
  }

  /** `execute` with the announcement isolated: a rejected `fetch` is caught and logged, and
      the tool goes on as when the announcement succeeds. */
  function AnswerIsolated(msg: string, chatId: string, userId: string, userName: Option<string>,
                          nowMs: nat, env: map<string, string>, md5: string -> HexDigest,
                          notifyFails: bool): Outcome
  {
    Answer(msg, chatId, userId, userName, nowMs, env, md5, false)
  }

  /** With the announcement isolated, every message gets a successful reply with the
      classifier's action whether or not the announcement fails, and a payment-link
      message always ends with the payment menu carrying the link for its key. */
  lemma IsolatedLinkAlwaysSent(msg: string, chatId: string, userId: string,
                               userName: Option<string>, nowMs: nat, env: map<string, string>,
                               md5: string -> HexDigest, notifyFails: bool)
    ensures var out := AnswerIsolated(msg, chatId, userId, userName, nowMs, env, md5, notifyFails);
      && out.reply == Some(ToolReply(true, ActionFor(msg)))
      && (ActionFor(msg) == PaymentLink ==>
            |msg| >= 4 && msg[4..] in StableCatalog && |out.effects| == 2
            && out.effects[1] == SendMenu(chatId, PaymentLink,
                 Some(LinkFor(msg[4..], StableCatalog[msg[4..]], userId, userName, nowMs, env,
                              md5).paymentUrl)))
  {
    AnswerScreens(msg, chatId, userId, userName, nowMs, env, md5, false);
    if ActionFor(msg) == PaymentLink {
      PaymentAnswer(msg, chatId, userId, userName, nowMs, env, md5, false);
    }
  }
}
