/** What the link signers share about the Robokassa payment page: the endpoint,
    `URLSearchParams` as an ordered list of query pairs, the signature input
    `login:amount:invoice:password`, the composite order id and the `IsTest` flag. */
module Robokassa {
  import opened Values
  import opened Text

  const Endpoint: string := "https://auth.robokassa.ru/Merchant/Index.aspx"

  /** The 32 lowercase hexadecimal characters of `digest("hex")` on an MD5 hash. */
  predicate IsHexDigit(c: char) {
    '0' <= c <= '9' || 'a' <= c <= 'f'
  }

  predicate IsHexDigest(s: string) {
    |s| == 32 && forall i :: 0 <= i < |s| ==> IsHexDigit(s[i])
  }

  type HexDigest = s: string | IsHexDigest(s) witness "00000000000000000000000000000000"

  /** The query of a URL as name/value pairs in order; names may repeat. */
  type Query = seq<(string, string)>

  /** `${base}?${params.toString()}`, kept as the base and the pairs before encoding. */
  datatype PaymentUrl = PaymentUrl(base: string, query: Query)

  /** A `URLSearchParams` object: built from a record's entries, grown by `append`. */
  class QueryParams {
    var pairs: Query

    constructor (init: Query)
      ensures pairs == init
    {
      pairs := init;
    }

    /** `params.append(name, value)`: adds a pair at the end, keeping earlier ones. */
    method Append(name: string, value: string)
      modifies this
      ensures pairs == old(pairs) + [(name, value)]
    {
      pairs := pairs + [(name, value)];
    }
  }

  /** `params.get(name)`: the value of the first pair with that name, if any. */
  function Get(q: Query, name: string): Option<string> {
    if q == [] then None
    else if q[0].0 == name then Some(q[0].1)
    else Get(q[1..], name)
  }

  /** The pair at index `i` is the first one named `name`, so `get` returns its value. */
  lemma {:induction false} GetAt(q: Query, i: nat, name: string)
    requires i < |q| && q[i].0 == name
    requires forall j :: 0 <= j < i ==> q[j].0 != name
    ensures Get(q, name) == Some(q[i].1)
  {
    if i > 0 {
      GetAt(q[1..], i - 1, name);
    }
  }

  /** A name no pair carries is not found. */
  lemma {:induction false} GetAbsent(q: Query, name: string)
    requires forall j :: 0 <= j < |q| ==> q[j].0 != name
    ensures Get(q, name) == None
  {
    if q != [] {
      GetAbsent(q[1..], name);
    }
  }

  /** The string the signers hash: `${login}:${amount}:${orderId}:${password1}`. */
  function SignatureInput(login: string, outSum: string, invId: string, password: string): string {
    login + ":" + outSum + ":" + invId + ":" + password
  }

  /** `${userId}_${Date.now()}`. */
  function CompositeOrderId(userId: string, nowMs: nat): string {
    userId + "_" + Decimal(nowMs)
  }

  /** Splits an order id at its last `_` into the customer id and the millisecond clock. */
  function SplitOrderId(orderId: string): Option<(string, nat)> {
    match LastIndexOfChar(orderId, '_')
    case None => None
    case Some(i) =>
      var digits := orderId[i + 1..];
      if digits != [] && AllDigits(digits) then Some((orderId[..i], ParseDecimal(digits))) else None
  }

  /** The composite order id gives back both the customer id and the clock reading,
      whatever characters (`_` included) the customer id holds. */
  lemma CompositeOrderIdRoundTrip(userId: string, nowMs: nat)
    ensures SplitOrderId(CompositeOrderId(userId, nowMs)) == Some((userId, nowMs))
  {
    var d := Decimal(nowMs);
    var id := CompositeOrderId(userId, nowMs);
    DecimalRoundTrip(nowMs);
    assert id[|userId|] == '_';
    forall j | |userId| < j < |id|
      ensures id[j] != '_'
    {
      assert id[j] == d[j - |userId| - 1];
    }
    var last := LastIndexOfChar(id, '_');
    assert last == Some(|userId|);
    assert id[|userId| + 1..] == d;
    assert id[..|userId|] == userId;
  }

  /** Two orders of the same customer at different instants get different ids. */
  lemma CompositeOrderIdDistinct(userId: string, ms1: nat, ms2: nat)
    requires ms1 != ms2
    ensures CompositeOrderId(userId, ms1) != CompositeOrderId(userId, ms2)
  {
    CompositeOrderIdRoundTrip(userId, ms1);
    CompositeOrderIdRoundTrip(userId, ms2);
  }

  /** `process.env.ROBOKASSA_MERCHANT_LOGIN || default`. */
  function MerchantLogin(env: map<string, string>, default: string): string {
    EnvOr(env, "ROBOKASSA_MERCHANT_LOGIN", default)
  }

  /** `process.env.ROBOKASSA_PASSWORD1 || default`. */
  function Password1(env: map<string, string>, default: string): string {
    EnvOr(env, "ROBOKASSA_PASSWORD1", default)
  }

  /** `process.env.ROBOKASSA_TEST_MODE === "true" ? 1 : 0`. */
  function IsTest(env: map<string, string>): (r: nat)
    ensures r == 1 <==> Lookup(env, "ROBOKASSA_TEST_MODE") == Some("true")
    ensures r == 0 || r == 1
  {
    if Lookup(env, "ROBOKASSA_TEST_MODE") == Some("true") then 1 else 0
  }

  /** The query both `append`-style signers send: seven fixed pairs, then `Shp_userName`
      only for a truthy user name, then `Shp_userId` and `Shp_subscriptionType`. */
  function AppendedQuery(login: string, outSum: string, invId: string, description: string,
                         signature: string, isTest: string, userName: Option<string>,
                         userId: string, subscriptionType: string): Query
  {
    [("MerchantLogin", login), ("OutSum", outSum), ("InvId", invId), ("Description", description),
     ("SignatureValue", signature), ("IsTest", isTest), ("Culture", "ru")]
    + (if Truthy(userName) then [("Shp_userName", userName.value)] else [])
    + [("Shp_userId", userId), ("Shp_subscriptionType", subscriptionType)]
  }

  /** Every value put into the appended query is read back under its own name, and
      `Shp_userName` is there exactly when the user name is truthy. */
  lemma AppendedQueryReadsBack(login: string, outSum: string, invId: string, description: string,
                               signature: string, isTest: string, userName: Option<string>,
                               userId: string, subscriptionType: string)
    ensures var q := AppendedQuery(login, outSum, invId, description, signature, isTest,
                                   userName, userId, subscriptionType);
      && Get(q, "MerchantLogin") == Some(login)
      && Get(q, "OutSum") == Some(outSum)
      && Get(q, "InvId") == Some(invId)
      && Get(q, "Description") == Some(description)
      && Get(q, "SignatureValue") == Some(signature)
      && Get(q, "IsTest") == Some(isTest)
      && Get(q, "Culture") == Some("ru")
      && (Get(q, "Shp_userName").Some? <==> Truthy(userName))
      && (Truthy(userName) ==> Get(q, "Shp_userName") == userName)
      && Get(q, "Shp_userId") == Some(userId)
      && Get(q, "Shp_subscriptionType") == Some(subscriptionType)
      && |q| == if Truthy(userName) then 10 else 9
  {
    var fixed := [("MerchantLogin", login), ("OutSum", outSum), ("InvId", invId),
                  ("Description", description), ("SignatureValue", signature),
                  ("IsTest", isTest), ("Culture", "ru")];
    var named: Query := if Truthy(userName) then [("Shp_userName", userName.value)] else [];
    var tail := [("Shp_userId", userId), ("Shp_subscriptionType", subscriptionType)];
    var q := fixed + named + tail;
    assert q == fixed + (named + tail);
    ReadFixed(fixed, named + tail, 0, "MerchantLogin");
    ReadFixed(fixed, named + tail, 1, "OutSum");
    ReadFixed(fixed, named + tail, 2, "InvId");
    ReadFixed(fixed, named + tail, 3, "Description");
    ReadFixed(fixed, named + tail, 4, "SignatureValue");
    ReadFixed(fixed, named + tail, 5, "IsTest");
    ReadFixed(fixed, named + tail, 6, "Culture");
    GetAt(q, |fixed + named|, "Shp_userId");
    GetAt(q, |fixed + named| + 1, "Shp_subscriptionType");
    if Truthy(userName) {
      GetAt(q, 7, "Shp_userName");
    } else {
      GetAbsent(q, "Shp_userName");
    }
  }

  /** The query an `append`-style signer sends for one order: credentials defaulting to
      "demo", order id `userId_millis`, the lowercase MD5 of `login:amount:orderId:password1`,
      `IsTest` from the environment, then the `Shp_*` pairs. */
  function SignedQuery(env: map<string, string>, amount: nat, description: string, userId: string,
                       userName: Option<string>, nowMs: nat, subscriptionType: string,
                       md5: string -> HexDigest): Query
  {
    var login := MerchantLogin(env, "demo");
    var orderId := CompositeOrderId(userId, nowMs);
    var signature := md5(SignatureInput(login, Decimal(amount), orderId, Password1(env, "demo")));
    AppendedQuery(login, Decimal(amount), orderId, description, signature, Decimal(IsTest(env)),
                  userName, userId, subscriptionType)
  }

  /** The signed query reads back as the order it was made of: `InvId` splits into the
      customer id and the clock, the signature covers login, amount, order id and password1
      and no `Shp_*` value, `IsTest` is "1" exactly in test mode and "0" otherwise, and
      `Shp_userName` is present exactly for a truthy user name. */
  lemma SignedQueryReadsBack(env: map<string, string>, amount: nat, description: string,
                             userId: string, userName: Option<string>, nowMs: nat,
                             subscriptionType: string, md5: string -> HexDigest)
    ensures var q := SignedQuery(env, amount, description, userId, userName, nowMs,
                                 subscriptionType, md5);
            var orderId := CompositeOrderId(userId, nowMs);
      && Get(q, "InvId") == Some(orderId)
      && SplitOrderId(orderId) == Some((userId, nowMs))
      && Get(q, "OutSum") == Some(Decimal(amount))
      && Get(q, "MerchantLogin") == Some(MerchantLogin(env, "demo"))
      && Get(q, "Description") == Some(description)
      && Get(q, "SignatureValue")
         == Some(md5(MerchantLogin(env, "demo") + ":" + Decimal(amount) + ":" + orderId + ":"
                     + Password1(env, "demo")))
      && (Get(q, "IsTest") == Some("1") <==> Lookup(env, "ROBOKASSA_TEST_MODE") == Some("true"))
      && (Get(q, "IsTest") == Some("0") <==> Lookup(env, "ROBOKASSA_TEST_MODE") != Some("true"))
      && Get(q, "Culture") == Some("ru")
      && (Get(q, "Shp_userName").Some? <==> Truthy(userName))
      && (Truthy(userName) ==> Get(q, "Shp_userName") == userName)
      && Get(q, "Shp_userId") == Some(userId)
      && Get(q, "Shp_subscriptionType") == Some(subscriptionType)
  {
    var login := MerchantLogin(env, "demo");
    var orderId := CompositeOrderId(userId, nowMs);
    var signature := md5(SignatureInput(login, Decimal(amount), orderId, Password1(env, "demo")));
    AppendedQueryReadsBack(login, Decimal(amount), orderId, description, signature,
                           Decimal(IsTest(env)), userName, userId, subscriptionType);
    CompositeOrderIdRoundTrip(userId, nowMs);
    assert Decimal(0) == "0" && Decimal(1) == "1";
  }

  /** A pair at index `i` of the first list, the first of its name there, is what `get` finds
      in the joined list. */
  lemma ReadFixed(q1: Query, q2: Query, i: nat, name: string)
    requires i < |q1| && q1[i].0 == name
    requires forall j :: 0 <= j < i ==> q1[j].0 != name
    ensures Get(q1 + q2, name) == Some(q1[i].1)
  {
    GetAt(q1 + q2, i, name);
  }
}
