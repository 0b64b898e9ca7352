/**
 * The Facebook ad adapter (`FacebookAdAdapter`), on the Marketing API of the
 * Graph API. Every request carries the access token in its query string or
 * its body; budgets are sent in cents. Campaign, ad set, creative and ad
 * inputs are the free-form dictionaries the callers pass.
 */
module FacebookAds {
  import opened Js
  import opened ApiRequestManager
  import opened SocialMediaAccounts
  import opened AdapterSupport
  import FacebookContent

  const BaseUrl := "https://graph.facebook.com/v18.0"

  /** The Marketing API takes budgets in the currency's minor unit. */
  const CentsPerUnit := 100

  const InsightFields := "impressions,clicks,spend,cpc,ctr,reach"

  // ---------------------------------------------------------------------------
  // Authentication and token refresh

  function AdAccountsEndpoint(a: Account): string {
    BaseUrl + "/me/adaccounts?access_token=" + a.accessToken
  }

  /** The account is active exactly when the ad account list in `data` is non-empty; the call never throws. */
  method Authenticate(net: Network, account: Account) returns (a: Account)
    modifies net
    ensures net.log == old(net.log) + [RequestOptions(AdAccountsEndpoint(account), GET, None, map[])]
    ensures a == ListAuthenticated(account, Settle(net.Reply(old(|net.log|))), "data")
  {
    var response := MakeRequest(net, BaseUrl + "/me/adaccounts?access_token=" + account.accessToken, GET, None, map[]);
    a := ListAuthenticated(account, response, "data");
  }

  /** The same long-lived token exchange as the content adapter: 60-day default, refresh token kept. */
  method RefreshToken(net: Network, account: Account, env: Credentials, now: int) returns (a: Account)
    modifies net
    ensures !Present(account.refreshToken) ==> net.log == old(net.log) && a == Expire(account)
    ensures Present(account.refreshToken) ==>
      net.log == old(net.log) + [FacebookContent.RefreshRequest(account.refreshToken.value, env)] &&
      a == Refreshed(account, Settle(net.Reply(old(|net.log|))), now, FacebookContent.DefaultExpiresIn, false)
    ensures a.refreshToken == account.refreshToken
  {
    a := FacebookContent.RefreshToken(net, account, env, now);
  }

  // ---------------------------------------------------------------------------
  // Campaigns

  /** `${baseUrl}/act_${input.adAccountId}`. */
  function AdAccountPath(input: Fields): string {
    BaseUrl + "/act_" + Interp(Lookup(input, "adAccountId"))
  }

  /**
   * A new campaign: the name as given, objective REACH, status PAUSED and no
   * special ad categories unless supplied, the token, and each budget in
   * cents only when supplied.
   */
  function CampaignData(token: string, input: Fields): (d: Fields)
    ensures "access_token" in d && d["access_token"] == JStr(token)
    ensures "objective" in d && d["objective"] == OrDefault(input, "objective", JStr("REACH"))
    ensures "status" in d && d["status"] == OrDefault(input, "status", JStr("PAUSED"))
    ensures "special_ad_categories" in d && d["special_ad_categories"] == OrDefault(input, "special_ad_categories", JArr([]))
    ensures Copied(d, input, "name", "name")
    ensures SentScaled(d, input, "daily_budget", "daily_budget", CentsPerUnit) && SentScaled(d, input, "lifetime_budget", "lifetime_budget", CentsPerUnit)
    ensures d.Keys <= {"name", "objective", "status", "special_ad_categories", "access_token", "daily_budget", "lifetime_budget"}
  {
    var literal := map["objective" := OrDefault(input, "objective", JStr("REACH")),
                       "status" := OrDefault(input, "status", JStr("PAUSED")),
                       "special_ad_categories" := OrDefault(input, "special_ad_categories", JArr([])),
                       "access_token" := JStr(token)];
    var named := With(literal, "name", Lookup(input, "name"));
    ScaleTruthy(ScaleTruthy(named, input, "daily_budget", "daily_budget", CentsPerUnit),
                input, "lifetime_budget", "lifetime_budget", CentsPerUnit)
  }

  /** `createCampaign`: one POST to the ad account's campaigns; the reply is the result. */
  method CreateCampaign(net: Network, account: Account, campaignData: Fields) returns (r: Outcome<Json>)
    modifies net
    ensures net.log == old(net.log) +
      [RequestOptions(AdAccountPath(campaignData) + "/campaigns", POST, Some(JObj(CampaignData(account.accessToken, campaignData))), map[])]
    ensures r == Settle(net.Reply(old(|net.log|)))
  {
    var endpoint := BaseUrl + "/act_" + Interp(Lookup(campaignData, "adAccountId")) + "/campaigns";
    var data := With(map["objective" := OrDefault(campaignData, "objective", JStr("REACH")),
                         "status" := OrDefault(campaignData, "status", JStr("PAUSED")),
                         "special_ad_categories" := OrDefault(campaignData, "special_ad_categories", JArr([])),
                         "access_token" := JStr(account.accessToken)],
                     "name", Lookup(campaignData, "name"));
    if Truthy(Lookup(campaignData, "daily_budget")) {
      data := data["daily_budget" := Scaled(campaignData["daily_budget"], CentsPerUnit)];
    }
    if Truthy(Lookup(campaignData, "lifetime_budget")) {
      data := data["lifetime_budget" := Scaled(campaignData["lifetime_budget"], CentsPerUnit)];
    }
    r := MakeRequest(net, endpoint, POST, Some(JObj(data)), map[]);
  }

  /** A campaign update: the token, plus only the supplied name, status and budgets (in cents). */
  function CampaignUpdate(token: string, input: Fields): (d: Fields)
    ensures "access_token" in d && d["access_token"] == JStr(token)
    ensures CopiedIfTruthy(d, input, "name", "name") && CopiedIfTruthy(d, input, "status", "status")
    ensures SentScaled(d, input, "daily_budget", "daily_budget", CentsPerUnit) && SentScaled(d, input, "lifetime_budget", "lifetime_budget", CentsPerUnit)
    ensures d.Keys <= {"access_token", "name", "status", "daily_budget", "lifetime_budget"}
  {
    var named := CopyTruthy(CopyTruthy(map["access_token" := JStr(token)], input, "name", "name"), input, "status", "status");
    ScaleTruthy(ScaleTruthy(named, input, "daily_budget", "daily_budget", CentsPerUnit),
                input, "lifetime_budget", "lifetime_budget", CentsPerUnit)
  }

  /** An update that supplies nothing sends the token alone. */
  lemma EmptyCampaignUpdate(token: string, input: Fields)
    requires forall k :: k in input ==> !JsonTruthy(input[k])
    ensures CampaignUpdate(token, input) == map["access_token" := JStr(token)]
  {
    var d := CampaignUpdate(token, input);
    assert d.Keys == {"access_token"};
  }

  method UpdateCampaign(net: Network, account: Account, campaignId: string, campaignData: Fields) returns (r: Outcome<Json>)
    modifies net
    ensures net.log == old(net.log) +
      [RequestOptions(BaseUrl + "/" + campaignId, POST, Some(JObj(CampaignUpdate(account.accessToken, campaignData))), map[])]
    ensures r == Settle(net.Reply(old(|net.log|)))
  {
    var data := map["access_token" := JStr(account.accessToken)];
    if Truthy(Lookup(campaignData, "name")) {
      data := data["name" := campaignData["name"]];
    }
    if Truthy(Lookup(campaignData, "status")) {
      data := data["status" := campaignData["status"]];
    }
    if Truthy(Lookup(campaignData, "daily_budget")) {
      data := data["daily_budget" := Scaled(campaignData["daily_budget"], CentsPerUnit)];
    }
    if Truthy(Lookup(campaignData, "lifetime_budget")) {
      data := data["lifetime_budget" := Scaled(campaignData["lifetime_budget"], CentsPerUnit)];
    }
    r := MakeRequest(net, BaseUrl + "/" + campaignId, POST, Some(JObj(data)), map[]);
  }

  // ---------------------------------------------------------------------------
  // Status changes, for campaigns and ads alike

  function StatusData(token: string, status: string): Fields {
    map["status" := JStr(status), "access_token" := JStr(token)]
  }

  function StatusRequest(a: Account, id: string, status: string): Request {
    RequestOptions(BaseUrl + "/" + id, POST, Some(JObj(StatusData(a.accessToken, status))), map[])
  }

  /** The status payload carries the new status and the token, and nothing else. */
  lemma StatusRequestShape(a: Account, id: string, status: string)
    ensures var q := StatusRequest(a, id, status);
      q.verb == POST && q.body.Some? && q.body.value.JObj? &&
      q.body.value.fields.Keys == {"status", "access_token"} && q.body.value.fields["status"] == JStr(status)
  {
    RequestOptionsShape(BaseUrl + "/" + id, POST, Some(JObj(StatusData(a.accessToken, status))), map[]);
  }

  method SetStatus(net: Network, account: Account, id: string, status: string) returns (r: Outcome<Json>)
    modifies net
    ensures net.log == old(net.log) + [StatusRequest(account, id, status)]
    ensures r == Settle(net.Reply(old(|net.log|)))
  {
    r := MakeRequest(net, BaseUrl + "/" + id, POST, Some(JObj(map["status" := JStr(status), "access_token" := JStr(account.accessToken)])), map[]);
  }

  method PauseCampaign(net: Network, account: Account, campaignId: string) returns (r: Outcome<Json>)
    modifies net
    ensures net.log == old(net.log) + [StatusRequest(account, campaignId, "PAUSED")]
    ensures r == Settle(net.Reply(old(|net.log|)))
  {
    r := SetStatus(net, account, campaignId, "PAUSED");
  }

  method ResumeCampaign(net: Network, account: Account, campaignId: string) returns (r: Outcome<Json>)
    modifies net
    ensures net.log == old(net.log) + [StatusRequest(account, campaignId, "ACTIVE")]
    ensures r == Settle(net.Reply(old(|net.log|)))
  {
    r := SetStatus(net, account, campaignId, "ACTIVE");
  }

  /** A soft delete: status DELETED; true exactly when the request succeeds, and never a throw. */
  method DeleteCampaign(net: Network, account: Account, campaignId: string) returns (ok: bool)
    modifies net
    ensures net.log == old(net.log) + [StatusRequest(account, campaignId, "DELETED")]
    ensures ok <==> net.Reply(old(|net.log|)).Ok?
  {
    var response := SetStatus(net, account, campaignId, "DELETED");
    ok := Succeeded(response);
  }

  method PauseAd(net: Network, account: Account, adId: string) returns (r: Outcome<Json>)
    modifies net
    ensures net.log == old(net.log) + [StatusRequest(account, adId, "PAUSED")]
    ensures r == Settle(net.Reply(old(|net.log|)))
  {
    r := SetStatus(net, account, adId, "PAUSED");
  }

  method ResumeAd(net: Network, account: Account, adId: string) returns (r: Outcome<Json>)
    modifies net
    ensures net.log == old(net.log) + [StatusRequest(account, adId, "ACTIVE")]
    ensures r == Settle(net.Reply(old(|net.log|)))
  {
    r := SetStatus(net, account, adId, "ACTIVE");
  }

  method DeleteAd(net: Network, account: Account, adId: string) returns (ok: bool)
    modifies net
    ensures net.log == old(net.log) + [StatusRequest(account, adId, "DELETED")]
    ensures ok <==> net.Reply(old(|net.log|)).Ok?
  {
    var response := SetStatus(net, account, adId, "DELETED");
    ok := Succeeded(response);
  }

  // ---------------------------------------------------------------------------
  // Ads: ad set, then creative, then ad

  /**
   * The ad set's object literal, before the optional fields: named after the
   * ad unless `adset_name` is given, in the campaign, with REACH /
   * IMPRESSIONS / bid 2 / PAUSED defaults. The daily budget in cents, the
   * targeting and the schedule are added only when supplied.
   */
  function AdSetLiteral(token: string, campaignId: string, input: Fields): Fields {
    map["name" := OrDefault(input, "adset_name", JStr(Interp(Lookup(input, "name")) + " Ad Set")),
        "campaign_id" := JStr(campaignId),
        "optimization_goal" := OrDefault(input, "optimization_goal", JStr("REACH")),
        "billing_event" := OrDefault(input, "billing_event", JStr("IMPRESSIONS")),
        "bid_amount" := OrDefault(input, "bid_amount", JNum(2)),
        "status" := OrDefault(input, "status", JStr("PAUSED")),
        "access_token" := JStr(token)]
  }

  /** The optional fields, set on `m` when supplied: the daily budget in cents, the targeting and the schedule. */
  function AdSetOptional(m: Fields, input: Fields): Fields {
    var budgeted := ScaleTruthy(m, input, "daily_budget", "daily_budget", CentsPerUnit);
    CopyTruthy(CopyTruthy(CopyTruthy(budgeted, input, "targeting", "targeting"), input, "start_time", "start_time"),
               input, "end_time", "end_time")
  }

  function AdSetData(token: string, campaignId: string, input: Fields): Fields {
    AdSetOptional(AdSetLiteral(token, campaignId, input), input)
  }

  /** The optional fields leave every other field of the literal alone. */
  lemma AdSetOptionalKeeps(m: Fields, input: Fields)
    ensures forall k :: k in m && k !in {"daily_budget", "targeting", "start_time", "end_time"} ==>
      k in AdSetOptional(m, input) && AdSetOptional(m, input)[k] == m[k]
  {
  }

  /** The ad set is named after the ad unless `adset_name` is given, and belongs to the campaign. */
  lemma AdSetIdentity(token: string, campaignId: string, input: Fields)
    ensures var d := AdSetData(token, campaignId, input);
      "name" in d && d["name"] == OrDefault(input, "adset_name", JStr(Interp(Lookup(input, "name")) + " Ad Set")) &&
      "campaign_id" in d && d["campaign_id"] == JStr(campaignId) &&
      "access_token" in d && d["access_token"] == JStr(token)
  {
    AdSetOptionalKeeps(AdSetLiteral(token, campaignId, input), input);
  }

  /** Unless supplied, the ad set optimises for REACH, bills on IMPRESSIONS, bids 2 and starts PAUSED. */
  lemma AdSetDefaults(token: string, campaignId: string, input: Fields)
    ensures var d := AdSetData(token, campaignId, input);
      "optimization_goal" in d && d["optimization_goal"] == OrDefault(input, "optimization_goal", JStr("REACH")) &&
      "billing_event" in d && d["billing_event"] == OrDefault(input, "billing_event", JStr("IMPRESSIONS")) &&
      "bid_amount" in d && d["bid_amount"] == OrDefault(input, "bid_amount", JNum(2)) &&
      "status" in d && d["status"] == OrDefault(input, "status", JStr("PAUSED"))
  {
    AdSetOptionalKeeps(AdSetLiteral(token, campaignId, input), input);
  }

  /** The daily budget goes in cents, and it, the targeting and the schedule only when supplied. */
  lemma AdSetOptionalFields(token: string, campaignId: string, input: Fields)
    ensures var d := AdSetData(token, campaignId, input);
      SentScaled(d, input, "daily_budget", "daily_budget", CentsPerUnit) &&
      CopiedIfTruthy(d, input, "targeting", "targeting") && CopiedIfTruthy(d, input, "start_time", "start_time") && CopiedIfTruthy(d, input, "end_time", "end_time")
  {
  }

  /** The link of the creative's story, before the optional image. */
  function LinkData(input: Fields): Fields {
    var literal := With(With(With(With(map[], "message", Lookup(input, "message")), "link", Lookup(input, "link")),
                             "caption", Lookup(input, "caption")), "description", Lookup(input, "description"));
    CopyTruthy(literal, input, "image_url", "image_url")
  }

  /** The creative: named after the ad unless `creative_name` is given, telling the page's link story. */
  function CreativeData(token: string, input: Fields): Fields {
    map["name" := OrDefault(input, "creative_name", JStr(Interp(Lookup(input, "name")) + " Creative")),
        "object_story_spec" := JObj(With(map["link_data" := JObj(LinkData(input))], "page_id", Lookup(input, "page_id"))),
        "access_token" := JStr(token)]
  }

  /** The creative is named after the ad unless `creative_name` is given, and tells the page's link story. */
  lemma CreativeShape(token: string, input: Fields)
    ensures var d := CreativeData(token, input);
      d.Keys == {"name", "object_story_spec", "access_token"} &&
      d["name"] == OrDefault(input, "creative_name", JStr(Interp(Lookup(input, "name")) + " Creative")) &&
      d["access_token"] == JStr(token) &&
      d["object_story_spec"].JObj? && Copied(d["object_story_spec"].fields, input, "page_id", "page_id") &&
      "link_data" in d["object_story_spec"].fields && d["object_story_spec"].fields["link_data"] == JObj(LinkData(input))
  {
  }

  /** The link has message, link, caption and description as given (an absent one left out), and the image only when supplied. */
  lemma LinkDataShape(input: Fields)
    ensures var l := LinkData(input);
      Copied(l, input, "message", "message") && Copied(l, input, "link", "link") && Copied(l, input, "caption", "caption") && Copied(l, input, "description", "description") &&
      CopiedIfTruthy(l, input, "image_url", "image_url") &&
      l.Keys <= {"message", "link", "caption", "description", "image_url"}
  {
  }

  /** The ad, binding the created ad set and creative by their ids. */
  function AdData(token: string, input: Fields, adsetId: Json, creativeId: Json): Fields {
    With(map["adset_id" := adsetId, "creative" := JObj(map["creative_id" := creativeId]),
             "status" := OrDefault(input, "status", JStr("PAUSED")), "access_token" := JStr(token)],
         "name", Lookup(input, "name"))
  }

  /** The ad names the ad set and the creative by the ids given, defaults to PAUSED and carries nothing else but the name and token. */
  lemma AdDataShape(token: string, input: Fields, adsetId: Json, creativeId: Json)
    ensures var d := AdData(token, input, adsetId, creativeId);
      "adset_id" in d && d["adset_id"] == adsetId &&
      "creative" in d && d["creative"] == JObj(map["creative_id" := creativeId]) &&
      "status" in d && d["status"] == OrDefault(input, "status", JStr("PAUSED")) &&
      "access_token" in d && d["access_token"] == JStr(token) &&
      Copied(d, input, "name", "name") &&
      d.Keys <= {"name", "adset_id", "creative", "status", "access_token"}
  {
  }

  function AdSetRequest(a: Account, campaignId: string, input: Fields): Request {
    RequestOptions(AdAccountPath(input) + "/adsets", POST, Some(JObj(AdSetData(a.accessToken, campaignId, input))), map[])
  }

  function CreativeRequest(a: Account, input: Fields): Request {
    RequestOptions(AdAccountPath(input) + "/adcreatives", POST, Some(JObj(CreativeData(a.accessToken, input))), map[])
  }

  function AdRequest(a: Account, input: Fields, adsetId: Json, creativeId: Json): Request {
    RequestOptions(AdAccountPath(input) + "/ads", POST, Some(JObj(AdData(a.accessToken, input, adsetId, creativeId))), map[])
  }

  /** `{ad, adset, creative}` once the ad request settles. */
  function AdResult(adset: Json, creative: Json, ad: Outcome<Json>): (r: Outcome<Json>)
    ensures ad.Throws? ==> r == Throws(ad.error)
    ensures ad.Returns? ==> r == Returns(JObj(map["ad" := ad.value, "adset" := adset, "creative" := creative]))
  {
    match ad
    case Throws(e) => Throws(e)
    case Returns(v) => Returns(JObj(map["ad" := v, "adset" := adset, "creative" := creative]))
  }

  /**
   * `createAd`: the requests go adsets, adcreatives, ads, in that order. A
   * step that fails or answers without an id stops the workflow with that
   * failure before the next request; the ad names the ids the first two
   * steps returned.
   */
  method CreateAd(net: Network, account: Account, campaignId: string, adData: Fields) returns (r: Outcome<Json>)
    modifies net
    ensures var adset := Settle(net.Reply(old(|net.log|)));
      !HasTruthy(adset, "id") ==>
        net.log == old(net.log) + [AdSetRequest(account, campaignId, adData)] &&
        r == Throws(StepFailure(adset, "adset"))
    ensures var adset := Settle(net.Reply(old(|net.log|)));
      var creative := Settle(net.Reply(old(|net.log|) + 1));
      HasTruthy(adset, "id") && !HasTruthy(creative, "id") ==>
        net.log == old(net.log) + [AdSetRequest(account, campaignId, adData), CreativeRequest(account, adData)] &&
        r == Throws(StepFailure(creative, "creative"))
    ensures var adset := Settle(net.Reply(old(|net.log|)));
      var creative := Settle(net.Reply(old(|net.log|) + 1));
      HasTruthy(adset, "id") && HasTruthy(creative, "id") ==>
        net.log == old(net.log) + [AdSetRequest(account, campaignId, adData), CreativeRequest(account, adData),
                                   AdRequest(account, adData, CreatedId(adset), CreatedId(creative))] &&
        r == AdResult(adset.value, creative.value, Settle(net.Reply(old(|net.log|) + 2)))
  {
    ghost var start := net.log;
    var adsetResponse := MakeRequest(net, AdAccountPath(adData) + "/adsets", POST,
                                     Some(JObj(AdSetData(account.accessToken, campaignId, adData))), map[]);
    assert net.log == start + [AdSetRequest(account, campaignId, adData)];
    if !HasTruthy(adsetResponse, "id") {
      return Throws(StepFailure(adsetResponse, "adset"));
    }
    var creativeResponse := MakeRequest(net, AdAccountPath(adData) + "/adcreatives", POST,
                                        Some(JObj(CreativeData(account.accessToken, adData))), map[]);
    assert net.log == start + [AdSetRequest(account, campaignId, adData), CreativeRequest(account, adData)];
    if !HasTruthy(creativeResponse, "id") {
      return Throws(StepFailure(creativeResponse, "creative"));
    }
    var adResponse := MakeRequest(net, AdAccountPath(adData) + "/ads", POST,
                                  Some(JObj(AdData(account.accessToken, adData, CreatedId(adsetResponse), CreatedId(creativeResponse)))), map[]);
    r := AdResult(adsetResponse.value, creativeResponse.value, adResponse);
  }

  /** An ad update: the token, plus only the supplied name and status. */
  function AdUpdate(token: string, input: Fields): (d: Fields)
    ensures "access_token" in d && d["access_token"] == JStr(token)
    ensures CopiedIfTruthy(d, input, "name", "name") && CopiedIfTruthy(d, input, "status", "status")
    ensures d.Keys <= {"access_token", "name", "status"}
  {
    CopyTruthy(CopyTruthy(map["access_token" := JStr(token)], input, "name", "name"), input, "status", "status")
  }

  method UpdateAd(net: Network, account: Account, adId: string, adData: Fields) returns (r: Outcome<Json>)
    modifies net
    ensures net.log == old(net.log) + [RequestOptions(BaseUrl + "/" + adId, POST, Some(JObj(AdUpdate(account.accessToken, adData))), map[])]
    ensures r == Settle(net.Reply(old(|net.log|)))
  {
    var data := map["access_token" := JStr(account.accessToken)];
    if Truthy(Lookup(adData, "name")) {
      data := data["name" := adData["name"]];
    }
    if Truthy(Lookup(adData, "status")) {
      data := data["status" := adData["status"]];
    }
    r := MakeRequest(net, BaseUrl + "/" + adId, POST, Some(JObj(data)), map[]);
  }

  // ---------------------------------------------------------------------------
  // Insights

  /** One entity's insights when both its id and type are given; otherwise the ad account's. */
  function AnalyticsEndpoint(a: Account, entityId: Option<string>, entityType: Option<string>): (e: string)
    ensures Present(entityId) && Present(entityType) ==>
      e == BaseUrl + "/" + entityId.value + "/insights?fields=" + InsightFields + "&access_token=" + a.accessToken
    ensures !(Present(entityId) && Present(entityType)) ==>
      e == BaseUrl + "/act_" + a.accountId + "/insights?fields=" + InsightFields + "&access_token=" + a.accessToken
  {
    if Present(entityId) && Present(entityType) then
      BaseUrl + "/" + entityId.value + "/insights?fields=" + InsightFields + "&access_token=" + a.accessToken
    else
      BaseUrl + "/act_" + a.accountId + "/insights?fields=" + InsightFields + "&access_token=" + a.accessToken
  }

  method GetAnalytics(net: Network, account: Account, entityId: Option<string>, entityType: Option<string>) returns (r: Outcome<JsValue>)
    modifies net
    ensures net.log == old(net.log) + [RequestOptions(AnalyticsEndpoint(account, entityId, entityType), GET, None, map[])]
    ensures r == DataOf(Settle(net.Reply(old(|net.log|))), "data")
  {
    var endpoint;
    if Present(entityId) && Present(entityType) {
      endpoint := BaseUrl + "/" + entityId.value + "/insights?fields=" + InsightFields + "&access_token=" + account.accessToken;
    } else {
      endpoint := BaseUrl + "/act_" + account.accountId + "/insights?fields=" + InsightFields + "&access_token=" + account.accessToken;
    }
    var response := MakeRequest(net, endpoint, GET, None, map[]);
    r := DataOf(response, "data");
  }
}
