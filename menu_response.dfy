/** The menu-response tool: it classifies a message like the message-processing
    tool but only RETURNS the reply (text and keyboard left out here), with a
    payment link whose order id is the Unix time in whole seconds, whose
    credentials default to "", and whose query carries neither `IsTest` nor any
    `Shp_*` parameter. */
module MenuResponse {
  import opened Values
  import opened Text
  import opened Robokassa
  import opened Menu

  /** What this file's `generateRobokassaLink` returns: the order id is a number here. */
  datatype MenuLink = MenuLink(paymentUrl: PaymentUrl, orderId: nat, amount: nat)

  /** `generateRobokassaLink` of this file. The user id and name are accepted and unused. */
  function GenerateLink(subscriptionType: string, userId: string, userName: Option<string>,
                        nowMs: nat, env: map<string, string>, md5: string -> HexDigest)
    : Result<MenuLink, LinkError>
  {
    if subscriptionType !in StableCatalog then Err(UnknownSubscriptionType(subscriptionType))
    else
      var subscription := StableCatalog[subscriptionType];
      var orderId := nowMs / 1000;
      var amount := subscription.price;
      var outSum := Decimal(amount);
      var signature := md5(SignatureInput(MerchantLogin(env, ""), outSum, Decimal(orderId), Password1(env, "")));
      var query := LiteralQuery(MerchantLogin(env, ""), outSum, Decimal(orderId),
                                subscription.description + " - " + subscription.period, signature);
      Ok(MenuLink(PaymentUrl(Endpoint, query), orderId, amount))
  }

  /** The parameters of this file's single `URLSearchParams` literal, in order. */
  function LiteralQuery(login: string, outSum: string, invId: string, description: string,
                        signature: string): Query
  {
    [("MerchantLogin", login), ("OutSum", outSum), ("InvId", invId), ("Description", description),
     ("SignatureValue", signature), ("Culture", "ru")]
  }

  /** The literal query holds exactly six pairs, each value reads back under its own name,
      and it carries neither `IsTest` nor any `Shp_*` parameter. */
  lemma LiteralQueryReadsBack(login: string, outSum: string, invId: string, description: string,
                              signature: string)
    ensures var q := LiteralQuery(login, outSum, invId, description, signature);
      && |q| == 6
      && Get(q, "MerchantLogin") == Some(login)
      && Get(q, "OutSum") == Some(outSum)
      && Get(q, "InvId") == Some(invId)
      && Get(q, "Description") == Some(description)
      && Get(q, "SignatureValue") == Some(signature)
      && Get(q, "Culture") == Some("ru")
      && Get(q, "IsTest") == None
      && (forall i :: 0 <= i < |q| ==> !StartsWith(q[i].0, "Shp_"))
  {
    var q := LiteralQuery(login, outSum, invId, description, signature);
    GetAt(q, 0, "MerchantLogin");
    GetAt(q, 1, "OutSum");
    GetAt(q, 2, "InvId");
    GetAt(q, 3, "Description");
    GetAt(q, 4, "SignatureValue");
    GetAt(q, 5, "Culture");
    GetAbsent(q, "IsTest");
    forall i | 0 <= i < |q|
      ensures !StartsWith(q[i].0, "Shp_")
    {
      assert q[i].0[0] != 'S' || q[i].0[1] != 'h';
    }
  }

  /** The link fails exactly for a key the price table lacks. Otherwise its order id is
      the clock in whole seconds and reads back from `InvId`, the amount is the catalog
      price, the description joins description and period, and the signature covers
      login, amount, order id and password1, with both credentials defaulting to "". */
  lemma GenerateLinkShape(subscriptionType: string, userId: string, userName: Option<string>,
                          nowMs: nat, env: map<string, string>, md5: string -> HexDigest)
    ensures var r := GenerateLink(subscriptionType, userId, userName, nowMs, env, md5);
      && (r.Err? <==> subscriptionType !in StableCatalog)
      && (r.Err? ==> r.error == UnknownSubscriptionType(subscriptionType))
      && (r.Ok? ==>
          var offer := StableCatalog[subscriptionType];
          var q := r.value.paymentUrl.query;
          && r.value.paymentUrl.base == Endpoint
          && r.value.orderId == nowMs / 1000
          && r.value.amount == offer.price
          && q == LiteralQuery(MerchantLogin(env, ""), Decimal(offer.price), Decimal(nowMs / 1000),
                               offer.description + " - " + offer.period,
                               md5(MerchantLogin(env, "") + ":" + Decimal(offer.price) + ":"
                                   + Decimal(nowMs / 1000) + ":" + Password1(env, "")))
          && Get(q, "InvId").Some? && AllDigits(Get(q, "InvId").value)
          && ParseDecimal(Get(q, "InvId").value) == r.value.orderId
          && Get(q, "OutSum") == Some(Decimal(r.value.amount)))
  {
    var r := GenerateLink(subscriptionType, userId, userName, nowMs, env, md5);
    if r.Ok? {
      var offer := StableCatalog[subscriptionType];
      LiteralQueryReadsBack(MerchantLogin(env, ""), Decimal(offer.price), Decimal(nowMs / 1000),
                            offer.description + " - " + offer.period,
                            md5(MerchantLogin(env, "") + ":" + Decimal(offer.price) + ":"
                                + Decimal(nowMs / 1000) + ":" + Password1(env, "")));
      DecimalRoundTrip(nowMs / 1000);
    }
  }

  /** `orderDetails` of a payment-link reply. */
  datatype OrderDetails = OrderDetails(orderId: nat, amount: nat, subscriptionType: string)

  /** The reply object, without its text and keyboard except for the payment button's URL.
      `notifyManager` is false where the source leaves it out. */
  datatype MenuReply = MenuReply(action: Action, photoUrl: Option<string>, notifyManager: bool,
                                 orderDetails: Option<OrderDetails>,
                                 payButton: Option<PaymentUrl>)

  const WelcomePhotoUrl: string := "https://adobe-subscription-bot.replit.app/images/welcome.jpg"

  /** `execute` of the menu-response tool: it normalises the message and dispatches on it. */
  function Execute(message: string, userId: string, userName: Option<string>, nowMs: nat,
                   env: map<string, string>, md5: string -> HexDigest): MenuReply
  {
    Reply(Normalize(message), userId, userName, nowMs, env, md5)
  }

  /** The `if` chain of `execute` on the normalised message, which is `Classify`'s; a
      purchase of a key the price table lacks falls through to the default reply. */
  function Reply(msg: string, userId: string, userName: Option<string>, nowMs: nat,
                 env: map<string, string>, md5: string -> HexDigest): MenuReply
  {
    match Classify(msg)
    case Start => MenuReply(Welcome, Some(WelcomePhotoUrl), false, None, None)
    case Adobe => MenuReply(SubscriptionTypes, None, false, None, None)
    case Stable => MenuReply(StableInfo, None, false, None, None)
    case Buy(subscriptionType) =>
      if subscriptionType in StableCatalog then
        match GenerateLink(subscriptionType, userId, userName, nowMs, env, md5)
        case Ok(link) =>
          MenuReply(PaymentLink, None, true,
                    Some(OrderDetails(link.orderId, link.amount, subscriptionType)),
                    Some(link.paymentUrl))
        case Err(_) => MenuReply(Default, None, false, None, None)
      else MenuReply(Default, None, false, None, None)
    case Unrecognized => MenuReply(Default, None, false, None, None)
  }

  /** The reply's action is the shared classification's; only the welcome reply has a
      photo, and only the payment-link reply asks for the manager and carries order
      details and a pay button; an unknown `buy_stable_*` key gets the default reply. */
  lemma ReplyScreens(msg: string, userId: string, userName: Option<string>, nowMs: nat,
                     env: map<string, string>, md5: string -> HexDigest)
    ensures var r := Reply(msg, userId, userName, nowMs, env, md5);
      && r.action == ActionFor(msg)
      && (r.photoUrl.Some? <==> r.action == Welcome)
      && (r.action == Welcome ==> r.photoUrl == Some(WelcomePhotoUrl))
      && (r.notifyManager <==> r.action == PaymentLink)
      && (r.orderDetails.Some? <==> r.action == PaymentLink)
      && (r.payButton.Some? <==> r.action == PaymentLink)
  {
  }

  /** A payment-link reply carries the link generated for the key without `buy_` as its
      pay button, and order details naming that key, the clock in whole seconds and the
      catalog price: the same order id and amount the link's `InvId` and `OutSum` hold
      (`GenerateLinkShape`). */
  lemma PaymentDetails(msg: string, userId: string, userName: Option<string>, nowMs: nat,
                       env: map<string, string>, md5: string -> HexDigest)
    requires ActionFor(msg) == PaymentLink
    ensures var r := Reply(msg, userId, userName, nowMs, env, md5);
      && |msg| >= 4
      && var key := msg[4..];
      && key in StableCatalog
      && var link := GenerateLink(key, userId, userName, nowMs, env, md5);
      && link.Ok?
      && r.orderDetails == Some(OrderDetails(nowMs / 1000, StableCatalog[key].price, key))
      && link.value.orderId == nowMs / 1000
      && link.value.amount == StableCatalog[key].price
      && r.payButton == Some(link.value.paymentUrl)
  {
    BuyIntent(msg);
  }
}
