/**
 * The LinkedIn ad adapter (`LinkedInAdAdapter`), on the Marketing API.
 * Every request carries the bearer token and the Rest.li 2.0.0 protocol
 * header; updates and status changes are Rest.li partial updates. Money is
 * an amount (passed through unconverted) with a currency code.
 */
module LinkedInAds {
  import opened Js
  import opened ApiRequestManager
  import opened SocialMediaAccounts
  import opened AdapterSupport
  import LinkedInContent

  const BaseUrl := "https://api.linkedin.com/v2"

  const Metrics := ["impressions", "clicks", "costInLocalCurrency", "likes", "comments", "shares", "follows",
                    "conversionValueInLocalCurrency"]

  function Headers(a: Account): Headers {
    LinkedInContent.JsonRestliHeaders(a.accessToken)
  }

  /** The headers of updates and status changes. */
  function PartialUpdateHeaders(a: Account): Headers {
    Headers(a)["X-Restli-Method" := "PARTIAL_UPDATE"]
  }

  /** Every request names the Rest.li protocol; only partial updates name the PARTIAL_UPDATE method. */
  lemma HeaderKinds(a: Account)
    ensures Headers(a)["X-Restli-Protocol-Version"] == "2.0.0" && "X-Restli-Method" !in Headers(a)
    ensures PartialUpdateHeaders(a)["X-Restli-Protocol-Version"] == "2.0.0"
    ensures PartialUpdateHeaders(a)["X-Restli-Method"] == "PARTIAL_UPDATE"
    ensures Headers(a)["Authorization"] == PartialUpdateHeaders(a)["Authorization"] == "Bearer " + a.accessToken
  {
  }

  function SponsoredAccount(accountId: string): Json {
    JStr("urn:li:sponsoredAccount:" + accountId)
  }

  // ---------------------------------------------------------------------------
  // Authentication and token refresh

  /** The account is active exactly when the list of active ad accounts in `elements` is non-empty; the call never throws. */
  method Authenticate(net: Network, account: Account) returns (a: Account)
    modifies net
    ensures net.log == old(net.log) +
      [RequestOptions(BaseUrl + "/adAccountsV2?q=search&search.status.values[0]=ACTIVE", GET, None, Bearer(account.accessToken))]
    ensures a == ListAuthenticated(account, Settle(net.Reply(old(|net.log|))), "elements")
  {
    var response := MakeRequest(net, BaseUrl + "/adAccountsV2?q=search&search.status.values[0]=ACTIVE", GET, None,
                                Bearer(account.accessToken));
    a := ListAuthenticated(account, response, "elements");
  }

  /** The same OAuth 2 refresh as the content adapter: 60-day default, refresh token rotated when one is returned. */
  method RefreshToken(net: Network, account: Account, env: Credentials, now: int) returns (a: Account)
    modifies net
    ensures !Present(account.refreshToken) ==> net.log == old(net.log) && a == Expire(account)
    ensures Present(account.refreshToken) ==>
      net.log == old(net.log) + [LinkedInContent.RefreshRequest(account.refreshToken.value, env)] &&
      a == Refreshed(account, Settle(net.Reply(old(|net.log|))), now, LinkedInContent.DefaultExpiresIn, true)
  {
    a := LinkedInContent.RefreshToken(net, account, env, now);
  }

  // ---------------------------------------------------------------------------
  // Campaigns

  /** `{amount, currencyCode}`. */
  function Money(amount: Json, currency: Json): Json {
    JObj(map["amount" := amount, "currencyCode" := currency])
  }

  function Currency(input: Fields): Json {
    OrDefault(input, "currency", JStr("USD"))
  }

  function Locale(input: Fields): Json {
    JObj(map["country" := OrDefault(input, "country", JStr("US")), "language" := OrDefault(input, "language", JStr("en"))])
  }

  /** The campaign's object literal, before the optional schedule. */
  function CampaignLiteral(input: Fields): Fields {
    With(map["account" := SponsoredAccount(Interp(Lookup(input, "accountId"))),
             "status" := OrDefault(input, "status", JStr("PAUSED")),
             "type" := OrDefault(input, "type", JStr("SPONSORED_UPDATES")),
             "costType" := OrDefault(input, "costType", JStr("CPC")),
             "dailyBudget" := Money(OrDefault(input, "dailyBudget", JStr("10")), Currency(input)),
             "unitCost" := Money(OrDefault(input, "unitCost", JStr("2")), Currency(input)),
             "locale" := Locale(input)],
         "name", Lookup(input, "name"))
  }

  function CampaignData(input: Fields): Fields {
    CopyTruthy(CopyTruthy(CampaignLiteral(input), input, "startDate", "startDate"), input, "endDate", "endDate")
  }

  /** The schedule leaves every field of the literal alone. */
  lemma CampaignScheduleKeeps(m: Fields, input: Fields)
    ensures var d := CopyTruthy(CopyTruthy(m, input, "startDate", "startDate"), input, "endDate", "endDate");
      forall k :: k in m && k != "startDate" && k != "endDate" ==> k in d && d[k] == m[k]
  {
  }

  /**
   * A new campaign belongs to the input's sponsored account and is, unless
   * the input says otherwise, a PAUSED sponsored-updates campaign paid per
   * click.
   */
  lemma CampaignDefaults(input: Fields)
    ensures var d := CampaignData(input);
      "account" in d && d["account"] == SponsoredAccount(Interp(Lookup(input, "accountId"))) &&
      "status" in d && d["status"] == OrDefault(input, "status", JStr("PAUSED"))
    ensures var d := CampaignData(input);
      "type" in d && d["type"] == OrDefault(input, "type", JStr("SPONSORED_UPDATES")) &&
      "costType" in d && d["costType"] == OrDefault(input, "costType", JStr("CPC"))
  {
    CampaignScheduleKeeps(CampaignLiteral(input), input);
  }

  /**
   * Its daily budget defaults to 10 and its unit cost to 2, both in USD
   * unless a currency is given, and an amount supplied is sent as is; the
   * locale defaults to US English.
   */
  lemma CampaignMoney(input: Fields)
    ensures var d := CampaignData(input);
      "dailyBudget" in d && d["dailyBudget"] == Money(OrDefault(input, "dailyBudget", JStr("10")), Currency(input)) &&
      "unitCost" in d && d["unitCost"] == Money(OrDefault(input, "unitCost", JStr("2")), Currency(input)) &&
      "locale" in d && d["locale"] == Locale(input)
    ensures Truthy(Lookup(input, "dailyBudget")) ==> CampaignData(input)["dailyBudget"].fields["amount"] == input["dailyBudget"]
  {
    CampaignScheduleKeeps(CampaignLiteral(input), input);
  }

  /** The name is sent whenever the input has one, the start and end dates only when supplied. */
  lemma CampaignOptionalFields(input: Fields)
    ensures var d := CampaignData(input);
      Copied(d, input, "name", "name") &&
      CopiedIfTruthy(d, input, "startDate", "startDate") && CopiedIfTruthy(d, input, "endDate", "endDate")
  {
    CampaignScheduleKeeps(CampaignLiteral(input), input);
  }

  /** `createCampaign`: one POST to adCampaignsV2; the reply is the result. */
  method CreateCampaign(net: Network, account: Account, campaignData: Fields) returns (r: Outcome<Json>)
    modifies net
    ensures net.log == old(net.log) + [RequestOptions(BaseUrl + "/adCampaignsV2", POST, Some(JObj(CampaignData(campaignData))), Headers(account))]
    ensures r == Settle(net.Reply(old(|net.log|)))
  {
    var data := CampaignLiteral(campaignData);
    if Truthy(Lookup(campaignData, "startDate")) {
      data := data["startDate" := campaignData["startDate"]];
    }
    if Truthy(Lookup(campaignData, "endDate")) {
      data := data["endDate" := campaignData["endDate"]];
    }
    r := MakeRequest(net, BaseUrl + "/adCampaignsV2", POST, Some(JObj(data)), Headers(account));
  }

  /** `if (input.key) data.key = {amount: input.key, currencyCode}`. */
  function MoneyIfTruthy(m: Fields, input: Fields, key: string): (d: Fields)
    ensures Truthy(Lookup(input, key)) ==> d == m[key := Money(input[key], Currency(input))]
    ensures !Truthy(Lookup(input, key)) ==> d == m
  {
    if Truthy(Lookup(input, key)) then m[key := Money(input[key], Currency(input))] else m
  }

  lemma MoneyOther(m: Fields, input: Fields, key: string, k: string)
    requires k != key
    ensures SameAt(MoneyIfTruthy(m, input, key), m, k)
  {
  }

  /** A partial update: exactly the supplied fields, in the source's order. */
  function CampaignUpdate(input: Fields): Fields {
    var named := CopyTruthy(CopyTruthy(map[], input, "name", "name"), input, "status", "status");
    var budgets := MoneyIfTruthy(MoneyIfTruthy(named, input, "dailyBudget"), input, "unitCost");
    CopyTruthy(CopyTruthy(budgets, input, "startDate", "startDate"), input, "endDate", "endDate")
  }

  /** The name and status are sent exactly when supplied. */
  lemma CampaignUpdateNamed(input: Fields)
    ensures var d := CampaignUpdate(input);
      CopiedIfTruthy(d, input, "name", "name") && CopiedIfTruthy(d, input, "status", "status")
  {
    var n1 := CopyTruthy(map[], input, "name", "name");
    var named := CopyTruthy(n1, input, "status", "status");
    var b1 := MoneyIfTruthy(named, input, "dailyBudget");
    var budgets := MoneyIfTruthy(b1, input, "unitCost");
    var s1 := CopyTruthy(budgets, input, "startDate", "startDate");
    CopyTruthyOther(n1, input, "status", "status", "name");
    MoneyOther(named, input, "dailyBudget", "name");
    MoneyOther(named, input, "dailyBudget", "status");
    MoneyOther(b1, input, "unitCost", "name");
    MoneyOther(b1, input, "unitCost", "status");
    CopyTruthyOther(budgets, input, "startDate", "startDate", "name");
    CopyTruthyOther(budgets, input, "startDate", "startDate", "status");
    CopyTruthyOther(s1, input, "endDate", "endDate", "name");
    CopyTruthyOther(s1, input, "endDate", "endDate", "status");
  }

  /** So are the start and end dates. */
  lemma CampaignUpdateDates(input: Fields)
    ensures var d := CampaignUpdate(input);
      CopiedIfTruthy(d, input, "startDate", "startDate") && CopiedIfTruthy(d, input, "endDate", "endDate")
  {
    var named := CopyTruthy(CopyTruthy(map[], input, "name", "name"), input, "status", "status");
    assert named.Keys <= {"name", "status"};
    var budgets := MoneyIfTruthy(MoneyIfTruthy(named, input, "dailyBudget"), input, "unitCost");
    CopyTruthyOther(CopyTruthy(budgets, input, "startDate", "startDate"), input, "endDate", "endDate", "startDate");
  }

  /** Nothing but these six fields is ever sent. */
  lemma CampaignUpdateKeys(input: Fields)
    ensures CampaignUpdate(input).Keys <= {"name", "status", "dailyBudget", "unitCost", "startDate", "endDate"}
  {
  }

  /** A daily budget or unit cost is sent exactly when supplied, as the amount in the given currency (USD by default). */
  lemma CampaignUpdateMoney(input: Fields)
    ensures var d := CampaignUpdate(input);
      ("dailyBudget" in d <==> Truthy(Lookup(input, "dailyBudget"))) &&
      ("dailyBudget" in d ==> d["dailyBudget"] == Money(input["dailyBudget"], Currency(input))) &&
      ("unitCost" in d <==> Truthy(Lookup(input, "unitCost"))) &&
      ("unitCost" in d ==> d["unitCost"] == Money(input["unitCost"], Currency(input)))
  {
    var named := CopyTruthy(CopyTruthy(map[], input, "name", "name"), input, "status", "status");
    assert named.Keys <= {"name", "status"};
    var b1 := MoneyIfTruthy(named, input, "dailyBudget");
    var budgets := MoneyIfTruthy(b1, input, "unitCost");
    var s1 := CopyTruthy(budgets, input, "startDate", "startDate");
    MoneyOther(b1, input, "unitCost", "dailyBudget");
    CopyTruthyOther(budgets, input, "startDate", "startDate", "dailyBudget");
    CopyTruthyOther(budgets, input, "startDate", "startDate", "unitCost");
    CopyTruthyOther(s1, input, "endDate", "endDate", "dailyBudget");
    CopyTruthyOther(s1, input, "endDate", "endDate", "unitCost");
  }

  /** An update that supplies nothing sends an empty object. */
  lemma EmptyCampaignUpdate(input: Fields)
    requires forall k :: k in input ==> !JsonTruthy(input[k])
    ensures CampaignUpdate(input) == map[]
  {
    var d := CampaignUpdate(input);
    assert d.Keys == {};
  }

  method UpdateCampaign(net: Network, account: Account, campaignId: string, campaignData: Fields) returns (r: Outcome<Json>)
    modifies net
    ensures net.log == old(net.log) +
      [RequestOptions(BaseUrl + "/adCampaignsV2/" + campaignId, POST, Some(JObj(CampaignUpdate(campaignData))), PartialUpdateHeaders(account))]
    ensures r == Settle(net.Reply(old(|net.log|)))
  {
    var data: Fields := map[];
    if Truthy(Lookup(campaignData, "name")) {
      data := data["name" := campaignData["name"]];
    }
    if Truthy(Lookup(campaignData, "status")) {
      data := data["status" := campaignData["status"]];
    }
    if Truthy(Lookup(campaignData, "dailyBudget")) {
      data := data["dailyBudget" := Money(campaignData["dailyBudget"], Currency(campaignData))];
    }
    if Truthy(Lookup(campaignData, "unitCost")) {
      data := data["unitCost" := Money(campaignData["unitCost"], Currency(campaignData))];
    }
    if Truthy(Lookup(campaignData, "startDate")) {
      data := data["startDate" := campaignData["startDate"]];
    }
    if Truthy(Lookup(campaignData, "endDate")) {
      data := data["endDate" := campaignData["endDate"]];
    }
    r := MakeRequest(net, BaseUrl + "/adCampaignsV2/" + campaignId, POST, Some(JObj(data)), PartialUpdateHeaders(account));
  }

  // ---------------------------------------------------------------------------
  // Status changes

  function StatusRequest(a: Account, endpoint: string, status: string): Request {
    RequestOptions(endpoint, POST, Some(JObj(map["status" := JStr(status)])), PartialUpdateHeaders(a))
  }

  method SetStatus(net: Network, account: Account, endpoint: string, status: string) returns (r: Outcome<Json>)
    modifies net
    ensures net.log == old(net.log) + [StatusRequest(account, endpoint, status)]
    ensures r == Settle(net.Reply(old(|net.log|)))
  {
    r := MakeRequest(net, endpoint, POST, Some(JObj(map["status" := JStr(status)])), PartialUpdateHeaders(account));
  }

  function CampaignPath(campaignId: string): string {
    BaseUrl + "/adCampaignsV2/" + campaignId
  }

  function AdPath(adId: string): string {
    BaseUrl + "/adDirectSponsoredContentsV2/" + adId
  }

  method PauseCampaign(net: Network, account: Account, campaignId: string) returns (r: Outcome<Json>)
    modifies net
    ensures net.log == old(net.log) + [StatusRequest(account, CampaignPath(campaignId), "PAUSED")]
    ensures r == Settle(net.Reply(old(|net.log|)))
  {
    r := SetStatus(net, account, CampaignPath(campaignId), "PAUSED");
  }

  method ResumeCampaign(net: Network, account: Account, campaignId: string) returns (r: Outcome<Json>)
    modifies net
    ensures net.log == old(net.log) + [StatusRequest(account, CampaignPath(campaignId), "ACTIVE")]
    ensures r == Settle(net.Reply(old(|net.log|)))
  {
    r := SetStatus(net, account, CampaignPath(campaignId), "ACTIVE");
  }

  /** A soft delete: status ARCHIVED; true exactly when the request succeeds, and never a throw. */
  method DeleteCampaign(net: Network, account: Account, campaignId: string) returns (ok: bool)
    modifies net
    ensures net.log == old(net.log) + [StatusRequest(account, CampaignPath(campaignId), "ARCHIVED")]
    ensures ok <==> net.Reply(old(|net.log|)).Ok?
  {
    var response := SetStatus(net, account, CampaignPath(campaignId), "ARCHIVED");
    ok := Succeeded(response);
  }

  method PauseAd(net: Network, account: Account, adId: string) returns (r: Outcome<Json>)
    modifies net
    ensures net.log == old(net.log) + [StatusRequest(account, AdPath(adId), "PAUSED")]
    ensures r == Settle(net.Reply(old(|net.log|)))
  {
    r := SetStatus(net, account, AdPath(adId), "PAUSED");
  }

  method ResumeAd(net: Network, account: Account, adId: string) returns (r: Outcome<Json>)
    modifies net
    ensures net.log == old(net.log) + [StatusRequest(account, AdPath(adId), "ACTIVE")]
    ensures r == Settle(net.Reply(old(|net.log|)))
  {
    r := SetStatus(net, account, AdPath(adId), "ACTIVE");
  }

  method DeleteAd(net: Network, account: Account, adId: string) returns (ok: bool)
    modifies net
    ensures net.log == old(net.log) + [StatusRequest(account, AdPath(adId), "ARCHIVED")]
    ensures ok <==> net.Reply(old(|net.log|)).Ok?
  {
    var response := SetStatus(net, account, AdPath(adId), "ARCHIVED");
    ok := Succeeded(response);
  }

  // ---------------------------------------------------------------------------
  // Ads: sponsored content, creative, then the direct sponsored content

  /** The payload of both creative requests: a sponsored status update of the share, PAUSED by default. */
  function CreativeData(input: Fields): Fields {
    map["account" := SponsoredAccount(Interp(Lookup(input, "accountId"))),
        "type" := JStr("SPONSORED_STATUS_UPDATE"),
        "status" := OrDefault(input, "status", JStr("PAUSED")),
        "reference" := JStr("urn:li:share:" + Interp(Lookup(input, "shareId")))]
  }

  lemma CreativeShape(input: Fields)
    ensures var d := CreativeData(input);
      d.Keys == {"account", "type", "status", "reference"} &&
      d["type"] == JStr("SPONSORED_STATUS_UPDATE") && d["status"] == OrDefault(input, "status", JStr("PAUSED")) &&
      d["reference"] == JStr("urn:li:share:" + Interp(Lookup(input, "shareId")))
  {
  }

  function CreativeRequest(a: Account, input: Fields): Request {
    RequestOptions(BaseUrl + "/adCreativesV2", POST, Some(JObj(CreativeData(input))), Headers(a))
  }

  /** The ad ties the campaign to the creative by URN. */
  function AdData(campaignId: string, input: Fields, creativeId: Json): Fields {
    With(map["account" := SponsoredAccount(Interp(Lookup(input, "accountId"))),
             "campaign" := JStr("urn:li:sponsoredCampaign:" + campaignId),
             "creative" := JStr("urn:li:sponsoredCreative:" + Interp(Some(creativeId))),
             "status" := OrDefault(input, "status", JStr("PAUSED")),
             "locale" := Locale(input)],
         "name", Lookup(input, "name"))
  }

  lemma AdDataShape(campaignId: string, input: Fields, creativeId: Json)
    ensures var d := AdData(campaignId, input, creativeId);
      "campaign" in d && d["campaign"] == JStr("urn:li:sponsoredCampaign:" + campaignId) &&
      "creative" in d && d["creative"] == JStr("urn:li:sponsoredCreative:" + JsonString(creativeId)) &&
      "status" in d && d["status"] == OrDefault(input, "status", JStr("PAUSED")) &&
      Copied(d, input, "name", "name") &&
      d.Keys <= {"account", "campaign", "creative", "status", "name", "locale"}
  {
  }

  function AdRequest(a: Account, campaignId: string, input: Fields, creativeId: Json): Request {
    RequestOptions(BaseUrl + "/adDirectSponsoredContentsV2", POST, Some(JObj(AdData(campaignId, input, creativeId))), Headers(a))
  }

  /** `{ad, creative}` once the ad request settles. */
  function AdResult(creative: Json, ad: Outcome<Json>): (r: Outcome<Json>)
    ensures ad.Throws? ==> r == Throws(ad.error)
    ensures ad.Returns? ==> r == Returns(JObj(map["ad" := ad.value, "creative" := creative]))
  {
    match ad
    case Throws(e) => Throws(e)
    case Returns(v) => Returns(JObj(map["ad" := v, "creative" := creative]))
  }

  /**
   * `createAd`: the same creative request twice (the sponsored content, then
   * the creative), then the ad. A step that fails or answers without an id
   * stops the workflow before the next request; the ad names the second
   * response's id.
   */
  method CreateAd(net: Network, account: Account, campaignId: string, adData: Fields) returns (r: Outcome<Json>)
    modifies net
    ensures var content := Settle(net.Reply(old(|net.log|)));
      !HasTruthy(content, "id") ==>
        net.log == old(net.log) + [CreativeRequest(account, adData)] &&
        r == Throws(StepFailure(content, "sponsored content"))
    ensures var content := Settle(net.Reply(old(|net.log|)));
      var creative := Settle(net.Reply(old(|net.log|) + 1));
      HasTruthy(content, "id") && !HasTruthy(creative, "id") ==>
        net.log == old(net.log) + [CreativeRequest(account, adData), CreativeRequest(account, adData)] &&
        r == Throws(StepFailure(creative, "creative"))
    ensures var content := Settle(net.Reply(old(|net.log|)));
      var creative := Settle(net.Reply(old(|net.log|) + 1));
      HasTruthy(content, "id") && HasTruthy(creative, "id") ==>
        net.log == old(net.log) + [CreativeRequest(account, adData), CreativeRequest(account, adData),
                                   AdRequest(account, campaignId, adData, CreatedId(creative))] &&
        r == AdResult(creative.value, Settle(net.Reply(old(|net.log|) + 2)))
  {
    ghost var start := net.log;
    var contentResponse := MakeRequest(net, BaseUrl + "/adCreativesV2", POST, Some(JObj(CreativeData(adData))), Headers(account));
    assert net.log == start + [CreativeRequest(account, adData)];
    if !HasTruthy(contentResponse, "id") {
      return Throws(StepFailure(contentResponse, "sponsored content"));
    }
    var creativeResponse := MakeRequest(net, BaseUrl + "/adCreativesV2", POST, Some(JObj(CreativeData(adData))), Headers(account));
    assert net.log == start + [CreativeRequest(account, adData), CreativeRequest(account, adData)];
    if !HasTruthy(creativeResponse, "id") {
      return Throws(StepFailure(creativeResponse, "creative"));
    }
    var adResponse := MakeRequest(net, BaseUrl + "/adDirectSponsoredContentsV2", POST,
                                  Some(JObj(AdData(campaignId, adData, CreatedId(creativeResponse)))), Headers(account));
    r := AdResult(creativeResponse.value, adResponse);
  }

  /** A partial update of an ad: exactly the supplied name and status. */
  function AdUpdate(input: Fields): (d: Fields)
    ensures CopiedIfTruthy(d, input, "name", "name") && CopiedIfTruthy(d, input, "status", "status")
    ensures d.Keys <= {"name", "status"}
  {
    CopyTruthy(CopyTruthy(map[], input, "name", "name"), input, "status", "status")
  }

  method UpdateAd(net: Network, account: Account, adId: string, adData: Fields) returns (r: Outcome<Json>)
    modifies net
    ensures net.log == old(net.log) + [RequestOptions(AdPath(adId), POST, Some(JObj(AdUpdate(adData))), PartialUpdateHeaders(account))]
    ensures r == Settle(net.Reply(old(|net.log|)))
  {
    var data: Fields := map[];
    if Truthy(Lookup(adData, "name")) {
      data := data["name" := adData["name"]];
    }
    if Truthy(Lookup(adData, "status")) {
      data := data["status" := adData["status"]];
    }
    r := MakeRequest(net, AdPath(adId), POST, Some(JObj(data)), PartialUpdateHeaders(account));
  }

  // ---------------------------------------------------------------------------
  // Analytics

  /** A calendar day, with months counted from 1. */
  datatype Day = Day(year: int, month: int, day: int)

  function DateJson(d: Day): Json {
    JObj(map["day" := JNum(d.day), "month" := JNum(d.month), "year" := JNum(d.year)])
  }

  /** The report covers the current year up to `today`, daily, for the account, on the fixed metrics. */
  function AnalyticsBase(a: Account, today: Day): Fields {
    map["dateRange" := JObj(map["start" := DateJson(Day(today.year, 1, 1)), "end" := DateJson(today)]),
        "timeGranularity" := JStr("DAILY"),
        "accounts" := JArr([SponsoredAccount(a.accountId)]),
        "metrics" := JArr(seq(|Metrics|, i requires 0 <= i < |Metrics| => JStr(Metrics[i])))]
  }

  /** The entity filter: the key and URN for a campaign, creative or ad, and none for any other type. */
  function EntityFilter(entityId: Option<string>, entityType: Option<string>): (f: Option<(string, string)>)
    ensures f.Some? <==> Present(entityId) && Present(entityType) && entityType.value in {"campaign", "creative", "ad"}
    ensures f.Some? && entityType.value == "campaign" ==> f.value == ("campaigns", "urn:li:sponsoredCampaign:" + entityId.value)
    ensures f.Some? && entityType.value == "creative" ==> f.value == ("creatives", "urn:li:sponsoredCreative:" + entityId.value)
    ensures f.Some? && entityType.value == "ad" ==> f.value == ("creativeContents", "urn:li:sponsoredCreativeContent:" + entityId.value)
  {
    if !(Present(entityId) && Present(entityType)) then None
    else if entityType.value == "campaign" then Some(("campaigns", "urn:li:sponsoredCampaign:" + entityId.value))
    else if entityType.value == "creative" then Some(("creatives", "urn:li:sponsoredCreative:" + entityId.value))
    else if entityType.value == "ad" then Some(("creativeContents", "urn:li:sponsoredCreativeContent:" + entityId.value))
    else None
  }

  function AnalyticsData(a: Account, entityId: Option<string>, entityType: Option<string>, today: Day): Fields {
    match EntityFilter(entityId, entityType)
    case None => AnalyticsBase(a, today)
    case Some((key, urn)) => AnalyticsBase(a, today)[key := JArr([JStr(urn)])]
  }

  /** A filter adds exactly one key, holding the one URN; without one the payload is the base report. */
  lemma AnalyticsFilter(a: Account, entityId: Option<string>, entityType: Option<string>, today: Day)
    ensures var d := AnalyticsData(a, entityId, entityType, today);
      var f := EntityFilter(entityId, entityType);
      (f.None? ==> d == AnalyticsBase(a, today)) &&
      (f.Some? ==> d.Keys == AnalyticsBase(a, today).Keys + {f.value.0} && d[f.value.0] == JArr([JStr(f.value.1)]))
  {
  }

  /** `getAnalytics`: one POST to adAnalyticsV2, the result being the reply's `elements`. */
  method GetAnalytics(net: Network, account: Account, entityId: Option<string>, entityType: Option<string>, today: Day)
    returns (r: Outcome<JsValue>)
    modifies net
    ensures net.log == old(net.log) +
      [RequestOptions(BaseUrl + "/adAnalyticsV2", POST, Some(JObj(AnalyticsData(account, entityId, entityType, today))), Headers(account))]
    ensures r == DataOf(Settle(net.Reply(old(|net.log|))), "elements")
  {
    var data := AnalyticsBase(account, today);
    if Present(entityId) && Present(entityType) {
      if entityType.value == "campaign" {
        data := data["campaigns" := JArr([JStr("urn:li:sponsoredCampaign:" + entityId.value)])];
      } else if entityType.value == "creative" {
        data := data["creatives" := JArr([JStr("urn:li:sponsoredCreative:" + entityId.value)])];
      } else if entityType.value == "ad" {
        data := data["creativeContents" := JArr([JStr("urn:li:sponsoredCreativeContent:" + entityId.value)])];
      }
    }
    var response := MakeRequest(net, BaseUrl + "/adAnalyticsV2", POST, Some(JObj(data)), Headers(account));
    r := DataOf(response, "elements");
  }
}
