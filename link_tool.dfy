/** The stand-alone link tool: its input schema admits only the five stable keys, it
    builds the same `append`-style signed query as the message-processing tool, and it
    returns the link together with the order id, the amount and the description. */
module LinkTool {
  import opened Values
  import opened Text
  import opened Robokassa

  /** An entry of this file's `SUBSCRIPTION_PRICES`: no period, the duration is in the description. */
  datatype ToolOffer = ToolOffer(price: nat, description: string)

  const ToolCatalog: map<string, ToolOffer> := map[
    "stable_1m" := ToolOffer(1520, "Adobe Creative Cloud - 1 месяц"),
    "stable_2m" := ToolOffer(2500, "Adobe Creative Cloud - 2 месяца"),
    "stable_3m" := ToolOffer(3740, "Adobe Creative Cloud - 3 месяца"),
    "stable_6m" := ToolOffer(6630, "Adobe Creative Cloud - 6 месяцев"),
    "stable_1y" := ToolOffer(10455, "Adobe Creative Cloud - 1 год")
  ]

  /** The values the input schema's `z.enum` admits for `subscriptionType`. */
  const SubscriptionTypeEnum: seq<string> := ["stable_1m", "stable_2m", "stable_3m", "stable_6m", "stable_1y"]

  /** Why the tool produced no link: the schema refused the input, or the price table
      lacks the key (the `throw` in `execute`). */
  datatype ToolError = InvalidSubscriptionType(given: string) | UnknownSubscriptionType(subscriptionType: string)

  /** The tool's output record. */
  datatype ToolOutput = ToolOutput(paymentUrl: PaymentUrl, orderId: string, amount: nat, description: string)

  /** The schema admits a key exactly when the price table has it, so the `throw` of
      `execute` is never reached through the schema. */
  lemma EnumIsCatalog(subscriptionType: string)
    ensures subscriptionType in SubscriptionTypeEnum <==> subscriptionType in ToolCatalog
  {
    if subscriptionType in ToolCatalog {
      assert subscriptionType in ToolCatalog.Keys;
    }
  }

  /** `baseUrl`: the test-mode and the production branch name the same page. */
  function BaseUrl(isTest: nat): (r: string)
    ensures r == Endpoint
  {
    if isTest != 0 then "https://auth.robokassa.ru/Merchant/Index.aspx"
    else "https://auth.robokassa.ru/Merchant/Index.aspx"
  }

  /** The record `execute` returns for a key the price table has. */
  function OutputFor(subscriptionType: string, offer: ToolOffer, userId: string,
                     userName: Option<string>, nowMs: nat, env: map<string, string>,
                     md5: string -> HexDigest): ToolOutput
  {
    var query := SignedQuery(env, offer.price, offer.description, userId, userName, nowMs,
                             subscriptionType, md5);
    ToolOutput(PaymentUrl(BaseUrl(IsTest(env)), query), CompositeOrderId(userId, nowMs),
               offer.price, offer.description)
  }

  /** `execute`: throws for a key the price table lacks, otherwise builds the parameters
      from a record and appends the `Shp_*` ones. */
  method Execute(subscriptionType: string, userId: string, userName: Option<string>, nowMs: nat,
                 env: map<string, string>, md5: string -> HexDigest)
    returns (r: Result<ToolOutput, ToolError>)
    ensures subscriptionType !in ToolCatalog ==> r == Err(UnknownSubscriptionType(subscriptionType))
    ensures subscriptionType in ToolCatalog ==>
      r == Ok(OutputFor(subscriptionType, ToolCatalog[subscriptionType], userId, userName, nowMs, env, md5))
  {
    if subscriptionType !in ToolCatalog {
      return Err(UnknownSubscriptionType(subscriptionType));
    }
    var subscription := ToolCatalog[subscriptionType];
    var orderId := CompositeOrderId(userId, nowMs);
    var amount := subscription.price;
    var description := subscription.description;
    var merchantLogin := MerchantLogin(env, "demo");
    var password1 := Password1(env, "demo");
    var isTest := IsTest(env);
    var signature := md5(SignatureInput(merchantLogin, Decimal(amount), orderId, password1));
    var baseUrl := BaseUrl(isTest);
    var fixed := [("MerchantLogin", merchantLogin), ("OutSum", Decimal(amount)),
                  ("InvId", orderId), ("Description", description),
                  ("SignatureValue", signature), ("IsTest", Decimal(isTest)), ("Culture", "ru")];
    var params := new QueryParams(fixed);
    if Truthy(userName) {
      params.Append("Shp_userName", userName.value);
    }
    assert params.pairs == fixed + if Truthy(userName) then [("Shp_userName", userName.value)] else [];
    params.Append("Shp_userId", userId);
    params.Append("Shp_subscriptionType", subscriptionType);
    assert params.pairs == AppendedQuery(merchantLogin, Decimal(amount), orderId, description,
                                         signature, Decimal(isTest), userName, userId,
                                         subscriptionType);
    r := Ok(ToolOutput(PaymentUrl(baseUrl, params.pairs), orderId, amount, description));
  }

  /** The tool as called: input the schema refuses gets a validation error and no link;
      input it admits always gets the link, never the `throw`. */
  method Run(subscriptionType: string, userId: string, userName: Option<string>, nowMs: nat,
             env: map<string, string>, md5: string -> HexDigest)
    returns (r: Result<ToolOutput, ToolError>)
    ensures subscriptionType !in SubscriptionTypeEnum ==> r == Err(InvalidSubscriptionType(subscriptionType))
    ensures subscriptionType in SubscriptionTypeEnum ==>
      r == Ok(OutputFor(subscriptionType, ToolCatalog[subscriptionType], userId, userName, nowMs, env, md5))
  {
    EnumIsCatalog(subscriptionType);
    if subscriptionType !in SubscriptionTypeEnum {
      return Err(InvalidSubscriptionType(subscriptionType));
    }
    r := Execute(subscriptionType, userId, userName, nowMs, env, md5);
  }

  /** The returned order id, amount and description are the link's `InvId`, `OutSum` and
      `Description`; the amount and description are the catalog entry's, and the order id
      splits back into the customer id and the clock. */
  lemma OutputMatchesLink(subscriptionType: string, offer: ToolOffer, userId: string,
                          userName: Option<string>, nowMs: nat, env: map<string, string>,
                          md5: string -> HexDigest)
    ensures var out := OutputFor(subscriptionType, offer, userId, userName, nowMs, env, md5);
            var q := out.paymentUrl.query;
      && out.paymentUrl.base == Endpoint
      && out.amount == offer.price && out.description == offer.description
      && Get(q, "InvId") == Some(out.orderId)
      && Get(q, "OutSum") == Some(Decimal(out.amount))
      && Get(q, "Description") == Some(out.description)
      && SplitOrderId(out.orderId) == Some((userId, nowMs))
  {
    SignedQueryReadsBack(env, offer.price, offer.description, userId, userName, nowMs,
                         subscriptionType, md5);
  }
}
