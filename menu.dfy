/** The menu both bot dispatchers share: the stable-subscription price table
    and the first-match classification of a lower-cased, trimmed message
    (`/start` and friends, anything mentioning "adobe", the stable screen, a
    `buy_stable_*` button, or anything else). */
module Menu {
  import opened Values
  import opened Text

  /** An entry of `SUBSCRIPTION_PRICES`. */
  datatype Offer = Offer(price: nat, description: string, period: string)

  /** `SUBSCRIPTION_PRICES` of the two dispatchers; both files carry this same table. */
  const StableCatalog: map<string, Offer> := map[
    "stable_1m" := Offer(1520, "Adobe Creative Cloud - Стабильная", "1 месяц"),
    "stable_2m" := Offer(2500, "Adobe Creative Cloud - Стабильная", "2 месяца"),
    "stable_3m" := Offer(3740, "Adobe Creative Cloud - Стабильная", "3 месяца"),
    "stable_6m" := Offer(6630, "Adobe Creative Cloud - Стабильная", "6 месяцев"),
    "stable_1y" := Offer(10455, "Adobe Creative Cloud - Стабильная", "1 год")
  ]

  /** The error `generateRobokassaLink` throws for a key the price table lacks. */
  datatype LinkError = UnknownSubscriptionType(subscriptionType: string)

  /** `message.toLowerCase().trim()`. */
  function Normalize(message: string): string {
    Trim(Lower(message))
  }

  /** Every character of `s` is already in lower case. */
  predicate IsLowered(s: string) {
    forall i :: 0 <= i < |s| ==> LowerChar(s[i]) == s[i]
  }

  lemma LowerOfLowered(s: string)
    requires IsLowered(s)
    ensures Lower(s) == s
  {
  }

  lemma TrimKeepsLowered(s: string)
    requires IsLowered(s)
    ensures IsLowered(Trim(s))
  {
    var u := TrimStart(s);
    assert IsLowered(u) by {
      forall i | 0 <= i < |u| ensures LowerChar(u[i]) == u[i] {
        assert u[i] == s[|s| - |u| + i];
      }
    }
    var t := TrimEnd(u);
    forall i | 0 <= i < |t| ensures LowerChar(t[i]) == t[i] {
      assert t[i] == u[i];
    }
  }

  /** Normalising a normalised message changes nothing, so a command that the bot
      itself sends back as callback data is classified the same way again. */
  lemma NormalizeIdempotent(message: string)
    ensures Normalize(Normalize(message)) == Normalize(message)
  {
    var l := Lower(message);
    assert IsLowered(l) by {
      forall i | 0 <= i < |l| ensures LowerChar(l[i]) == l[i] {
        LowerCharIdempotent(message[i]);
      }
    }
    var n := Trim(l);
    TrimKeepsLowered(l);
    LowerOfLowered(n);
    TrimmedEnds(l);
    TrimOfTrimmed(n);
  }

  /** What the message asks for, before the price table is consulted. */
  datatype Intent = Start | Adobe | Stable | Buy(subscriptionType: string) | Unrecognized

  predicate IsStartCommand(msg: string) {
    msg == "/start" || msg == "start" || msg == "menu" || msg == "в меню"
  }

  predicate IsAdobeCommand(msg: string) {
    msg == "adobe_cc" || msg == "adobe creative cloud" || Contains(msg, "adobe")
  }

  predicate IsStableCommand(msg: string) {
    msg == "stable" || msg == "стабильный" || msg == "стабильный вариант"
  }

  /** The `if` chain of both dispatchers on the normalised message; the first test that
      holds wins. A `buy_stable_*` message names the key left after removing `buy_`. */
  function Classify(msg: string): Intent {
    if IsStartCommand(msg) then Start
    else if IsAdobeCommand(msg) then Adobe
    else if IsStableCommand(msg) then Stable
    else if StartsWith(msg, "buy_stable_") then Buy(ReplaceFirst(msg, "buy_", ""))
    else Unrecognized
  }

  /** The `action` a dispatcher reports. */
  datatype Action = Welcome | SubscriptionTypes | StableInfo | PaymentLink | Default

  /** A `buy_stable_*` key that the price table lacks falls through to the default reply. */
  function ActionFor(msg: string): Action {
    match Classify(msg)
    case Start => Welcome
    case Adobe => SubscriptionTypes
    case Stable => StableInfo
    case Buy(t) => if t in StableCatalog then PaymentLink else Default
    case Unrecognized => Default
  }

  /** The two exact "adobe" commands are subsumed by the substring test. */
  lemma AdobeIsSubstringTest(msg: string)
    ensures IsAdobeCommand(msg) <==> Contains(msg, "adobe")
  {
    if msg == "adobe_cc" || msg == "adobe creative cloud" {
      assert OccursAt(msg, "adobe", 0);
    }
  }

  /** A string that lacks one of the characters of `p` does not contain `p`. */
  lemma MissingCharNotContained(s: string, p: string, c: char)
    requires c in p && c !in s
    ensures !Contains(s, p)
  {
  }

  /** A message is a purchase exactly when no earlier test matches and it starts with
      `buy_stable_`; the key is then the message with its leading `buy_` removed, and
      itself starts with `stable_`. */
  lemma BuyIntent(msg: string)
    ensures Classify(msg).Buy? <==>
      !IsStartCommand(msg) && !Contains(msg, "adobe") && !IsStableCommand(msg)
      && StartsWith(msg, "buy_stable_")
    ensures Classify(msg).Buy? ==>
      Classify(msg).subscriptionType == msg[4..] && StartsWith(msg[4..], "stable_")
  {
    AdobeIsSubstringTest(msg);
    if StartsWith(msg, "buy_stable_") {
      assert StartsWith(msg, "buy_") by {
        assert msg[..4] == msg[..11][..4];
      }
      ReplaceLeadingPrefix(msg, "buy_");
      assert msg[4..][..7] == msg[..11][4..];
    }
  }

  /** The dispatch outcome, stated test by test in the order the source tries them. */
  lemma ActionOrder(msg: string)
    ensures IsStartCommand(msg) ==> ActionFor(msg) == Welcome
    ensures !IsStartCommand(msg) && Contains(msg, "adobe") ==> ActionFor(msg) == SubscriptionTypes
    ensures !IsStartCommand(msg) && !Contains(msg, "adobe") && IsStableCommand(msg)
            ==> ActionFor(msg) == StableInfo
    ensures ActionFor(msg) == PaymentLink <==> Classify(msg).Buy? && msg[4..] in StableCatalog
    ensures Classify(msg).Buy? && msg[4..] !in StableCatalog ==> ActionFor(msg) == Default
    ensures (!IsStartCommand(msg) && !Contains(msg, "adobe") && !IsStableCommand(msg)
             && !StartsWith(msg, "buy_stable_")) ==> ActionFor(msg) == Default
  {
    AdobeIsSubstringTest(msg);
    BuyIntent(msg);
  }

  /** Characters the bot's own callback data is made of: lower-case ASCII letters,
      digits and `_`. */
  predicate IsCallbackChar(c: char) {
    'a' <= c <= 'z' || '0' <= c <= '9' || c == '_'
  }

  /** Callback data made of such characters comes through `toLowerCase().trim()` unchanged. */
  lemma NormalizeKeepsCallbackData(s: string)
    requires forall i :: 0 <= i < |s| ==> IsCallbackChar(s[i])
    ensures Normalize(s) == s
  {
    assert IsLowered(s);
    LowerOfLowered(s);
    TrimOfTrimmed(s);
  }

  /** The price table's keys are written in callback-data characters. */
  lemma CatalogKeysAreCallbackData(key: string)
    requires key in StableCatalog
    ensures forall i :: 0 <= i < |key| ==> IsCallbackChar(key[i])
  {
  }

  /** The un-normalised button data `buy_` + a price-table key classifies as a payment link. */
  lemma BuyButtonIsPaymentLink(key: string)
    requires key in StableCatalog
    ensures ActionFor("buy_" + key) == PaymentLink
  {
    var msg := "buy_" + key;
    assert msg[4..] == key;
    assert StartsWith(msg, "buy_stable_");
    assert 'd' !in msg;
    MissingCharNotContained(msg, "adobe", 'd');
    BuyIntent(msg);
  }

  /** Every purchase button of the stable screen (`buy_` + a price-table key), once
      normalised as the dispatchers do, leads to a payment link: the menu offers no dead
      button. */
  lemma PurchaseButtonsReachPaymentLink(key: string)
    requires key in StableCatalog
    ensures ActionFor(Normalize("buy_" + key)) == PaymentLink
  {
    var msg := "buy_" + key;
    assert forall i :: 0 <= i < |msg| ==> IsCallbackChar(msg[i]) by {
      CatalogKeysAreCallbackData(key);
    }
    NormalizeKeepsCallbackData(msg);
    BuyButtonIsPaymentLink(key);
  }
}
