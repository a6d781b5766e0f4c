/** The Robokassa result callback (`POST /api/robokassa/result`): it collects the
    truthy `Shp_*` fields as `name=value` strings and sorts them, signs
    `OutSum:InvId:password2:<shp joined by ":">` with MD5, compares the upper-cased
    digest with the upper-cased claimed `SignatureValue`, and answers `OK<InvId>`
    or 400. An accepted payment is announced to the manager chat when one is set. */
module ResultRoute {
  import opened Values
  import opened Text
  import opened Sorting
  import opened Robokassa
  import Menu

  /** `SUBSCRIPTION_LABELS`: display names, used only in the manager's message. */
  const SubscriptionLabels: map<string, string> := map[
    "stable_1m" := "Adobe CC Стабильная - 1 месяц",
    "stable_2m" := "Adobe CC Стабильная - 2 месяца",
    "stable_3m" := "Adobe CC Стабильная - 3 месяца",
    "stable_6m" := "Adobe CC Стабильная - 6 месяцев",
    "stable_1y" := "Adobe CC Стабильная - 1 год",
    "chatgpt_1m" := "ChatGPT Plus - 1 месяц",
    "chatgpt_1y" := "ChatGPT Plus - 1 год",
    "google_pro_1m" := "Google AI Pro 2TB - 1 месяц",
    "google_pro_1y" := "Google AI Pro 2TB - 12 месяцев",
    "google_ultra_1m" := "Google AI Ultra - 1 месяц"
  ]

  /** `SUBSCRIPTION_LABELS[type] || type`, as interpolated into the manager's message: a
      known key shows its label, anything else (an absent field prints "undefined") shows
      itself. */
  function DisplayLabel(subscriptionType: Option<string>): (r: string)
    ensures Interp(subscriptionType) in SubscriptionLabels ==>
              r == SubscriptionLabels[Interp(subscriptionType)] && r != ""
    ensures Interp(subscriptionType) !in SubscriptionLabels ==> r == Interp(subscriptionType)
  {
    var key := Interp(subscriptionType);
    if key in SubscriptionLabels && SubscriptionLabels[key] != "" then SubscriptionLabels[key]
    else Interp(subscriptionType)
  }

  /** Every key the bot sells has a label, and the label names the catalog's period. */
  lemma LabelsCoverCatalog(key: string)
    requires key in Menu.StableCatalog
    ensures key in SubscriptionLabels
    ensures SubscriptionLabels[key] == "Adobe CC Стабильная - " + Menu.StableCatalog[key].period
  {
  }

  /** `process.env.ROBOKASSA_PASSWORD2 || process.env.ROBOKASSA_PASSWORD1 || ""`. */
  function Password2(env: map<string, string>): string {
    EnvOr(env, "ROBOKASSA_PASSWORD2", EnvOr(env, "ROBOKASSA_PASSWORD1", ""))
  }

  /** The verifying secret is the second password when it is set and non-empty, else the
      first one, else the empty string. */
  lemma Password2FallsBack(env: map<string, string>)
    ensures Truthy(Lookup(env, "ROBOKASSA_PASSWORD2")) ==> Password2(env) == env["ROBOKASSA_PASSWORD2"]
    ensures !Truthy(Lookup(env, "ROBOKASSA_PASSWORD2")) && Truthy(Lookup(env, "ROBOKASSA_PASSWORD1"))
            ==> Password2(env) == env["ROBOKASSA_PASSWORD1"]
    ensures !Truthy(Lookup(env, "ROBOKASSA_PASSWORD2")) && !Truthy(Lookup(env, "ROBOKASSA_PASSWORD1"))
            ==> Password2(env) == ""
  {
  }

  /** The strings pushed into `shpParams`, in push order: one `name=value` per truthy field. */
  function ShpPushList(body: map<string, string>): seq<string> {
    (if Truthy(Lookup(body, "Shp_subscriptionType"))
     then ["Shp_subscriptionType=" + body["Shp_subscriptionType"]] else [])
    + (if Truthy(Lookup(body, "Shp_userId")) then ["Shp_userId=" + body["Shp_userId"]] else [])
    + (if Truthy(Lookup(body, "Shp_userName")) then ["Shp_userName=" + body["Shp_userName"]] else [])
  }

  /** The list holds `Shp_subscriptionType=…`, `Shp_userId=…` and `Shp_userName=…` exactly
      for the fields that are present and non-empty, and nothing else. */
  lemma ShpPushListContents(body: map<string, string>)
    ensures forall x :: x in ShpPushList(body) <==>
      || (Truthy(Lookup(body, "Shp_subscriptionType")) && x == "Shp_subscriptionType=" + body["Shp_subscriptionType"])
      || (Truthy(Lookup(body, "Shp_userId")) && x == "Shp_userId=" + body["Shp_userId"])
      || (Truthy(Lookup(body, "Shp_userName")) && x == "Shp_userName=" + body["Shp_userName"])
    ensures |ShpPushList(body)|
      == (if Truthy(Lookup(body, "Shp_subscriptionType")) then 1 else 0)
       + (if Truthy(Lookup(body, "Shp_userId")) then 1 else 0)
       + (if Truthy(Lookup(body, "Shp_userName")) then 1 else 0)
  {
  }

  /** The three entry forms are in sorted order whatever their values: `Shp_s…` < `Shp_u…`
      at the fifth character, and `Shp_userI…` < `Shp_userN…` at the ninth. */
  lemma ShpEntriesOrdered(subscriptionType: string, userId: string, userName: string)
    ensures LexLeq("Shp_subscriptionType=" + subscriptionType, "Shp_userId=" + userId)
    ensures LexLeq("Shp_subscriptionType=" + subscriptionType, "Shp_userName=" + userName)
    ensures LexLeq("Shp_userId=" + userId, "Shp_userName=" + userName)
  {
    var t := "Shp_subscriptionType=" + subscriptionType;
    var i := "Shp_userId=" + userId;
    var n := "Shp_userName=" + userName;
    assert t[..4] == i[..4] == n[..4] == "Shp_";
    LexLeqAtFirstDifference(t, i, 4);
    LexLeqAtFirstDifference(t, n, 4);
    assert i[..8] == n[..8] == "Shp_user";
    LexLeqAtFirstDifference(i, n, 8);
  }

  /** The fields are pushed in an order the sort keeps, so sorting changes nothing. */
  lemma ShpPushListSorted(body: map<string, string>)
    ensures Sorted(ShpPushList(body))
  {
    var t := if Truthy(Lookup(body, "Shp_subscriptionType"))
             then ["Shp_subscriptionType=" + body["Shp_subscriptionType"]] else [];
    var i := if Truthy(Lookup(body, "Shp_userId")) then ["Shp_userId=" + body["Shp_userId"]] else [];
    var n := if Truthy(Lookup(body, "Shp_userName")) then ["Shp_userName=" + body["Shp_userName"]] else [];
    ShpEntriesOrdered(Interp(Lookup(body, "Shp_subscriptionType")), Interp(Lookup(body, "Shp_userId")),
                      Interp(Lookup(body, "Shp_userName")));
    SortedConcat(t, i);
    SortedConcat(t + i, n);
  }

  /** The handler's collection of `shpParams`: push the truthy `Shp_*` fields, then sort
      the list in place. */
  method CollectShpParams(body: map<string, string>) returns (shp: seq<string>)
    ensures Sorted(shp)
    ensures multiset(shp) == multiset(ShpPushList(body))
    ensures shp == ShpPushList(body)
  {
    var pushed: seq<string> := [];
    if Truthy(Lookup(body, "Shp_subscriptionType")) {
      pushed := pushed + ["Shp_subscriptionType=" + body["Shp_subscriptionType"]];
    }
    if Truthy(Lookup(body, "Shp_userId")) {
      pushed := pushed + ["Shp_userId=" + body["Shp_userId"]];
    }
    if Truthy(Lookup(body, "Shp_userName")) {
      pushed := pushed + ["Shp_userName=" + body["Shp_userName"]];
    }
    assert pushed == ShpPushList(body);
    var a := new string[|pushed|](i requires 0 <= i < |pushed| => pushed[i]);
    assert a[..] == pushed;
    SortInPlace(a);
    shp := a[..];
    ShpPushListSorted(body);
    SortedPermutationUnique(shp, pushed);
  }

  /** Sorting makes the joined list independent of the push order: any sorted
      arrangement of the same entries joins to the same string. */
  lemma ShpJoinIndependentOfOrder(body: map<string, string>, arranged: seq<string>)
    requires multiset(arranged) == multiset(ShpPushList(body))
    requires Sorted(arranged)
    ensures Join(arranged, ":") == Join(ShpPushList(body), ":")
  {
    ShpPushListSorted(body);
    SortedPermutationUnique(arranged, ShpPushList(body));
  }

  /** `${OutSum}:${InvId}:${password2}:${shpParams.join(":")}`. */
  function CheckString(body: map<string, string>, password2: string, shp: seq<string>): string {
    Interp(Lookup(body, "OutSum")) + ":" + Interp(Lookup(body, "InvId")) + ":" + password2 + ":"
    + Join(shp, ":")
  }

  /** Without any `Shp_*` field the check string still ends in the separator. */
  lemma CheckStringTrailingSeparator(body: map<string, string>, password2: string)
    requires !Truthy(Lookup(body, "Shp_subscriptionType")) && !Truthy(Lookup(body, "Shp_userId"))
    requires !Truthy(Lookup(body, "Shp_userName"))
    ensures CheckString(body, password2, ShpPushList(body))
         == Interp(Lookup(body, "OutSum")) + ":" + Interp(Lookup(body, "InvId")) + ":" + password2 + ":"
  {
    assert ShpPushList(body) == [];
  }

  /** With all three `Shp_*` fields the check string lists them in sorted order. */
  lemma CheckStringAllShp(body: map<string, string>, password2: string)
    requires Truthy(Lookup(body, "Shp_subscriptionType")) && Truthy(Lookup(body, "Shp_userId"))
    requires Truthy(Lookup(body, "Shp_userName"))
    ensures CheckString(body, password2, ShpPushList(body))
         == Interp(Lookup(body, "OutSum")) + ":" + Interp(Lookup(body, "InvId")) + ":" + password2 + ":"
            + ("Shp_subscriptionType=" + body["Shp_subscriptionType"] + ":"
               + ("Shp_userId=" + body["Shp_userId"] + ":" + "Shp_userName=" + body["Shp_userName"]))
  {
    var a := "Shp_subscriptionType=" + body["Shp_subscriptionType"];
    var b := "Shp_userId=" + body["Shp_userId"];
    var c := "Shp_userName=" + body["Shp_userName"];
    assert ShpPushList(body) == [a, b, c];
    assert [a, b, c][1..] == [b, c] && [b, c][1..] == [c];
    assert Join([c], ":") == c;
    assert Join([b, c], ":") == b + ":" + c;
    assert Join([a, b, c], ":") == a + ":" + (b + ":" + c);
  }

  /** `SignatureValue?.toUpperCase() === expected`: an absent claim never matches. */
  predicate Accepted(claim: Option<string>, expected: string) {
    claim.Some? && Upper(claim.value) == expected
  }

  /** `c` spells the digest `d` with any mix of letter cases. */
  predicate CaseVariantOf(c: string, d: string) {
    |c| == |d| && forall i :: 0 <= i < |c| ==> c[i] == d[i] || c[i] == UpperChar(d[i])
  }

  /** Only a hexadecimal digit itself and its upper-case form upper-case to the same
      character as that digit. */
  lemma UpperCharMatchesHex(x: char, h: char)
    requires IsHexDigit(h)
    ensures UpperChar(x) == UpperChar(h) <==> x == h || x == UpperChar(h)
  {
  }

  /** The comparison accepts exactly the claims that spell the lowercase digest in some
      mix of cases. */
  lemma AcceptedIffCaseVariant(claim: Option<string>, digest: HexDigest)
    ensures Accepted(claim, Upper(digest)) <==> claim.Some? && CaseVariantOf(claim.value, digest)
  {
    if claim.Some? {
      var c := claim.value;
      if Upper(c) == Upper(digest) {
        forall i | 0 <= i < |c|
          ensures c[i] == digest[i] || c[i] == UpperChar(digest[i])
        {
          assert Upper(c)[i] == Upper(digest)[i];
          UpperCharMatchesHex(c[i], digest[i]);
        }
      }
      if CaseVariantOf(c, digest) {
        forall i | 0 <= i < |c|
          ensures Upper(c)[i] == Upper(digest)[i]
        {
          UpperCharMatchesHex(c[i], digest[i]);
        }
        assert Upper(c) == Upper(digest);
      }
    }
  }

  /** The digest the handler expects for a body, before upper-casing. */
  function ExpectedDigest(body: map<string, string>, env: map<string, string>,
                          md5: string -> HexDigest): HexDigest
  {
    md5(CheckString(body, Password2(env), ShpPushList(body)))
  }

  /** The handler's signature check: the claim, upper-cased, equals the upper-cased digest
      of the check string. */
  predicate SignatureAccepted(body: map<string, string>, env: map<string, string>,
                              md5: string -> HexDigest)
  {
    Accepted(Lookup(body, "SignatureValue"), Upper(ExpectedDigest(body, env, md5)))
  }

  /** A body without `SignatureValue`, or with an empty one, is always rejected. */
  lemma MissingSignatureRejected(body: map<string, string>, env: map<string, string>,
                                 md5: string -> HexDigest)
    requires !Truthy(Lookup(body, "SignatureValue"))
    ensures !SignatureAccepted(body, env, md5)
  {
  }

  /** A body signed by the handler's own formula, in any letter case, is accepted: the
      signature does not sign itself, so setting it leaves the check string alone. */
  lemma SelfSignedAccepted(body: map<string, string>, env: map<string, string>,
                           md5: string -> HexDigest, claim: string)
    requires CaseVariantOf(claim, ExpectedDigest(body, env, md5))
    ensures SignatureAccepted(body["SignatureValue" := claim], env, md5)
  {
    var signed := body["SignatureValue" := claim];
    assert ShpPushList(signed) == ShpPushList(body);
    assert CheckString(signed, Password2(env), ShpPushList(signed))
        == CheckString(body, Password2(env), ShpPushList(body));
    AcceptedIffCaseVariant(Some(claim), ExpectedDigest(body, env, md5));
  }

  /** The HTTP answer: a status and a text body. */
  datatype Response = Response(status: nat, text: string)

  /** The message announcing a confirmed payment to the manager chat. */
  datatype ManagerNotice = ManagerNotice(chatId: string, customer: string, subscription: string,
                                         outSum: string, invId: string)

  /** The answer and the announcement the handler attempts. */
  datatype ResultOutcome = ResultOutcome(response: Response, notice: Option<ManagerNotice>)

  /** `@userName` for a truthy user name, the user id otherwise. */
  function Customer(body: map<string, string>): string {
    if Truthy(Lookup(body, "Shp_userName")) then "@" + body["Shp_userName"]
    else Interp(Lookup(body, "Shp_userId"))
  }

  /** The announcement for an accepted body when the manager chat is set. */
  function NoticeFor(body: map<string, string>, env: map<string, string>): Option<ManagerNotice> {
    if Truthy(Lookup(env, "MANAGER_CHAT_ID")) then
      Some(ManagerNotice(env["MANAGER_CHAT_ID"], Customer(body),
                         DisplayLabel(Lookup(body, "Shp_subscriptionType")),
                         Interp(Lookup(body, "OutSum")), Interp(Lookup(body, "InvId"))))
    else None
  }

  /** The body of the 400 answer. */
  const InvalidSignature: string := "Invalid signature"

  /** The handler as written: the announcement is awaited inside the `try`, so when it is
      attempted and fails (`sendFails`) the `catch` answers 500 instead of `OK<InvId>`. */
  function Respond(body: map<string, string>, env: map<string, string>, md5: string -> HexDigest,
                   sendFails: bool): ResultOutcome
  {
    if SignatureAccepted(body, env, md5) then
      var notice := NoticeFor(body, env);
      if notice.Some? && sendFails then ResultOutcome(Response(500, "Error"), notice)
      else ResultOutcome(Response(200, "OK" + Interp(Lookup(body, "InvId"))), notice)
    else ResultOutcome(Response(400, InvalidSignature), None)
  }

  /** The result handler, with `bot.sendMessage` abstracted to whether it fails. */
  method HandleResult(body: map<string, string>, env: map<string, string>,
                      md5: string -> HexDigest, sendFails: bool)
    returns (out: ResultOutcome)
    ensures out == Respond(body, env, md5, sendFails)
  {
    var password2 := Password2(env);
    var shp := CollectShpParams(body);
    var checkString := CheckString(body, password2, shp);
    var expectedSignature := Upper(md5(checkString));
    var claim := Lookup(body, "SignatureValue");
    if Accepted(claim, expectedSignature) {
      var notice := NoticeFor(body, env);
      if notice.Some? && sendFails {
        return ResultOutcome(Response(500, "Error"), notice);
      }
      return ResultOutcome(Response(200, "OK" + Interp(Lookup(body, "InvId"))), notice);
    }
    return ResultOutcome(Response(400, InvalidSignature), None);
  }

  /** Whatever the announcement does, a body whose signature does not match is rejected with
      400 "Invalid signature" and announces nothing, an accepted payment is announced exactly
      when a manager chat is set, and with no chat it is acknowledged with `OK<InvId>`. When
      the announcement goes through (or none is due), `OK<InvId>` answers exactly the bodies
      whose signature matches and 400 every other body. */
  lemma AckIffAccepted(body: map<string, string>, env: map<string, string>,
                       md5: string -> HexDigest, sendFails: bool)
    ensures !SignatureAccepted(body, env, md5) ==>
      Respond(body, env, md5, sendFails) == ResultOutcome(Response(400, InvalidSignature), None)
    ensures SignatureAccepted(body, env, md5) && !Truthy(Lookup(env, "MANAGER_CHAT_ID")) ==>
      Respond(body, env, md5, sendFails).response == Response(200, "OK" + Interp(Lookup(body, "InvId")))
    ensures Respond(body, env, md5, sendFails).notice.Some?
            <==> SignatureAccepted(body, env, md5) && Truthy(Lookup(env, "MANAGER_CHAT_ID"))
    ensures var out := Respond(body, env, md5, false);
      && (out.response == Response(200, "OK" + Interp(Lookup(body, "InvId")))
          <==> SignatureAccepted(body, env, md5))
      && (out.response == Response(400, "Invalid signature") <==> !SignatureAccepted(body, env, md5))
  {
  }

  /** As written, a failed announcement withholds the acknowledgement of a correctly signed
      payment: the answer is 500 and contains no `OK`. */
  lemma SendFailureWithholdsAck(body: map<string, string>, env: map<string, string>,
                                md5: string -> HexDigest)
    requires SignatureAccepted(body, env, md5) && Truthy(Lookup(env, "MANAGER_CHAT_ID"))
    ensures Respond(body, env, md5, true).response == Response(500, "Error")
    ensures Respond(body, env, md5, true).response != Respond(body, env, md5, false).response
  {
  }

  /** The handler with the announcement isolated from the answer: its failure is logged
      and the payment is still acknowledged. */
  function RespondIsolated(body: map<string, string>, env: map<string, string>,
                           md5: string -> HexDigest, sendFails: bool): ResultOutcome
  {
    if SignatureAccepted(body, env, md5) then
      ResultOutcome(Response(200, "OK" + Interp(Lookup(body, "InvId"))), NoticeFor(body, env))
    else ResultOutcome(Response(400, InvalidSignature), None)
  }

  /** With the announcement isolated, the answer depends on the signature alone: a matching
      signature is acknowledged whether or not the announcement fails, and it agrees with
      the handler as written whenever the announcement succeeds. */
  lemma IsolatedAckIffAccepted(body: map<string, string>, env: map<string, string>,
                               md5: string -> HexDigest, sendFails: bool)
    ensures RespondIsolated(body, env, md5, sendFails).response
            == Response(200, "OK" + Interp(Lookup(body, "InvId")))
            <==> SignatureAccepted(body, env, md5)
    ensures RespondIsolated(body, env, md5, sendFails).response
            == RespondIsolated(body, env, md5, !sendFails).response
    ensures RespondIsolated(body, env, md5, sendFails) == Respond(body, env, md5, false)
  {
  }
}
