/**
 * The Twitter ad adapter (`TwitterAdAdapter`), on the Ads API. Requests
 * carry the bearer token; money goes out in micro-units of the currency.
 * An ad is a line item promoting a tweet, so ads are updated, paused,
 * resumed and deleted through their line item.
 */
module TwitterAds {
  import opened Js
  import opened ApiRequestManager
  import opened SocialMediaAccounts
  import opened AdapterSupport
  import TwitterContent

  const BaseUrl := "https://ads-api.twitter.com/11"
  const AuthBaseUrl := "https://api.twitter.com/2"

  /** The Ads API takes amounts in millionths of the currency unit. */
  const MicrosPerUnit := 1000000

  /** The bid of a line item created without one: 10 units. */
  const DefaultBidMicros := 10000000

  function JsonHeaders(a: Account): Headers {
    TwitterContent.JsonHeaders(a.accessToken)
  }

  function AccountPath(accountId: string): string {
    BaseUrl + "/accounts/" + accountId
  }

  // ---------------------------------------------------------------------------
  // Authentication and token refresh

  /** The account is active exactly when the ad account list in `data` is non-empty; the call never throws. */
  method Authenticate(net: Network, account: Account) returns (a: Account)
    modifies net
    ensures net.log == old(net.log) + [RequestOptions(BaseUrl + "/accounts", GET, None, Bearer(account.accessToken))]
    ensures a == ListAuthenticated(account, Settle(net.Reply(old(|net.log|))), "data")
  {
    var response := MakeRequest(net, BaseUrl + "/accounts", GET, None, Bearer(account.accessToken));
    a := ListAuthenticated(account, response, "data");
  }

  /** The same OAuth 2 refresh as the content adapter: two-hour default, refresh token rotated when one is returned. */
  method RefreshToken(net: Network, account: Account, env: Credentials, now: int) returns (a: Account)
    modifies net
    ensures !Present(account.refreshToken) ==> net.log == old(net.log) && a == Expire(account)
    ensures Present(account.refreshToken) ==>
      net.log == old(net.log) + [TwitterContent.RefreshRequest(account.refreshToken.value, env)] &&
      a == Refreshed(account, Settle(net.Reply(old(|net.log|))), now, TwitterContent.DefaultExpiresIn, true)
  {
    a := TwitterContent.RefreshToken(net, account, env, now);
  }

  // ---------------------------------------------------------------------------
  // Campaigns

  /**
   * A new campaign, as one object literal: the name, funding instrument and
   * schedule as given, the status (PAUSED by default) as `entity_status`,
   * and each budget in micro-units, or undefined when not supplied.
   */
  function CampaignData(input: Fields): Fields {
    var named := With(With(map["entity_status" := OrDefault(input, "status", JStr("PAUSED"))],
                           "name", Lookup(input, "name")),
                      "funding_instrument_id", Lookup(input, "funding_instrument_id"));
    var budgeted := ScaleTruthy(ScaleTruthy(named, input, "daily_budget", "daily_budget_amount_local_micro", MicrosPerUnit),
                                input, "total_budget", "total_budget_amount_local_micro", MicrosPerUnit);
    With(With(budgeted, "start_time", Lookup(input, "start_time")), "end_time", Lookup(input, "end_time"))
  }

  /** The budgets of a new campaign go in micro-units, and only when supplied. */
  lemma CampaignBudgets(input: Fields)
    ensures var d := CampaignData(input);
      SentScaled(d, input, "daily_budget", "daily_budget_amount_local_micro", MicrosPerUnit) &&
      SentScaled(d, input, "total_budget", "total_budget_amount_local_micro", MicrosPerUnit)
  {
    var named := With(With(map["entity_status" := OrDefault(input, "status", JStr("PAUSED"))],
                           "name", Lookup(input, "name")),
                      "funding_instrument_id", Lookup(input, "funding_instrument_id"));
    var budgeted := ScaleTruthy(ScaleTruthy(named, input, "daily_budget", "daily_budget_amount_local_micro", MicrosPerUnit),
                                input, "total_budget", "total_budget_amount_local_micro", MicrosPerUnit);
    WithFrame(budgeted, "start_time", Lookup(input, "start_time"));
    WithFrame(With(budgeted, "start_time", Lookup(input, "start_time")), "end_time", Lookup(input, "end_time"));
  }

  /** A new campaign is PAUSED unless a status is supplied; the other fields are the input's, left out when undefined. */
  lemma CampaignFields(input: Fields)
    ensures var d := CampaignData(input);
      "entity_status" in d && d["entity_status"] == OrDefault(input, "status", JStr("PAUSED")) &&
      Copied(d, input, "name", "name") && Copied(d, input, "funding_instrument_id", "funding_instrument_id") &&
      Copied(d, input, "start_time", "start_time") && Copied(d, input, "end_time", "end_time") &&
      d.Keys <= {"entity_status", "name", "funding_instrument_id", "daily_budget_amount_local_micro",
                 "total_budget_amount_local_micro", "start_time", "end_time"}
  {
    var literal := map["entity_status" := OrDefault(input, "status", JStr("PAUSED"))];
    var n := With(literal, "name", Lookup(input, "name"));
    var f := With(n, "funding_instrument_id", Lookup(input, "funding_instrument_id"));
    var b := ScaleTruthy(f, input, "daily_budget", "daily_budget_amount_local_micro", MicrosPerUnit);
    var t := ScaleTruthy(b, input, "total_budget", "total_budget_amount_local_micro", MicrosPerUnit);
    var s := With(t, "start_time", Lookup(input, "start_time"));
    WithFrame(literal, "name", Lookup(input, "name"));
    WithFrame(n, "funding_instrument_id", Lookup(input, "funding_instrument_id"));
    WithFrame(t, "start_time", Lookup(input, "start_time"));
    WithFrame(s, "end_time", Lookup(input, "end_time"));
  }

  /** `createCampaign`: one POST to the ad account's campaigns (the account named by the input); the result is the reply's `data`. */
  method CreateCampaign(net: Network, account: Account, campaignData: Fields) returns (r: Outcome<JsValue>)
    modifies net
    ensures net.log == old(net.log) +
      [RequestOptions(AccountPath(Interp(Lookup(campaignData, "accountId"))) + "/campaigns", POST,
                      Some(JObj(CampaignData(campaignData))), JsonHeaders(account))]
    ensures r == DataOf(Settle(net.Reply(old(|net.log|))), "data")
  {
    var endpoint := BaseUrl + "/accounts/" + Interp(Lookup(campaignData, "accountId")) + "/campaigns";
    var response := MakeRequest(net, endpoint, POST, Some(JObj(CampaignData(campaignData))), JsonHeaders(account));
    r := DataOf(response, "data");
  }

  /** A campaign update: only the supplied name, status, budgets (in micro-units) and schedule. */
  function CampaignUpdate(input: Fields): (d: Fields)
    ensures CopiedIfTruthy(d, input, "name", "name") && CopiedIfTruthy(d, input, "entity_status", "entity_status")
    ensures SentScaled(d, input, "daily_budget", "daily_budget_amount_local_micro", MicrosPerUnit)
    ensures SentScaled(d, input, "total_budget", "total_budget_amount_local_micro", MicrosPerUnit)
    ensures CopiedIfTruthy(d, input, "start_time", "start_time") && CopiedIfTruthy(d, input, "end_time", "end_time")
    ensures d.Keys <= {"name", "entity_status", "daily_budget_amount_local_micro", "total_budget_amount_local_micro",
                       "start_time", "end_time"}
  {
    var named := CopyTruthy(CopyTruthy(map[], input, "name", "name"), input, "entity_status", "entity_status");
    var budgeted := ScaleTruthy(ScaleTruthy(named, input, "daily_budget", "daily_budget_amount_local_micro", MicrosPerUnit),
                                input, "total_budget", "total_budget_amount_local_micro", MicrosPerUnit);
    CopyTruthy(CopyTruthy(budgeted, input, "start_time", "start_time"), input, "end_time", "end_time")
  }

  method UpdateCampaign(net: Network, account: Account, campaignId: string, campaignData: Fields) returns (r: Outcome<JsValue>)
    modifies net
    ensures net.log == old(net.log) +
      [RequestOptions(AccountPath(Interp(Lookup(campaignData, "accountId"))) + "/campaigns/" + campaignId, PUT,
                      Some(JObj(CampaignUpdate(campaignData))), JsonHeaders(account))]
    ensures r == DataOf(Settle(net.Reply(old(|net.log|))), "data")
  {
    var endpoint := BaseUrl + "/accounts/" + Interp(Lookup(campaignData, "accountId")) + "/campaigns/" + campaignId;
    var data: Fields := map[];
    if Truthy(Lookup(campaignData, "name")) {
      data := data["name" := campaignData["name"]];
    }
    if Truthy(Lookup(campaignData, "entity_status")) {
      data := data["entity_status" := campaignData["entity_status"]];
    }
    if Truthy(Lookup(campaignData, "daily_budget")) {
      data := data["daily_budget_amount_local_micro" := Scaled(campaignData["daily_budget"], MicrosPerUnit)];
    }
    if Truthy(Lookup(campaignData, "total_budget")) {
      data := data["total_budget_amount_local_micro" := Scaled(campaignData["total_budget"], MicrosPerUnit)];
    }
    if Truthy(Lookup(campaignData, "start_time")) {
      data := data["start_time" := campaignData["start_time"]];
    }
    if Truthy(Lookup(campaignData, "end_time")) {
      data := data["end_time" := campaignData["end_time"]];
    }
    var response := MakeRequest(net, endpoint, PUT, Some(JObj(data)), JsonHeaders(account));
    r := DataOf(response, "data");
  }

  // ---------------------------------------------------------------------------
  // Status changes

  function CampaignPath(a: Account, campaignId: string): string {
    AccountPath(a.accountId) + "/campaigns/" + campaignId
  }

  function LineItemPath(accountId: string, lineItemId: string): string {
    AccountPath(accountId) + "/line_items/" + lineItemId
  }

  function StatusRequest(a: Account, endpoint: string, status: string): Request {
    RequestOptions(endpoint, PUT, Some(JObj(map["entity_status" := JStr(status)])), JsonHeaders(a))
  }

  /** A status change is a PUT whose body is the new `entity_status` alone, with the bearer token. */
  lemma StatusRequestShape(a: Account, endpoint: string, status: string)
    ensures var q := StatusRequest(a, endpoint, status);
      q.verb == PUT && q.body == Some(JObj(map["entity_status" := JStr(status)])) &&
      q.headers["Authorization"] == "Bearer " + a.accessToken
  {
    RequestOptionsShape(endpoint, PUT, Some(JObj(map["entity_status" := JStr(status)])), JsonHeaders(a));
  }

  method SetStatus(net: Network, account: Account, endpoint: string, status: string) returns (r: Outcome<Json>)
    modifies net
    ensures net.log == old(net.log) + [StatusRequest(account, endpoint, status)]
    ensures r == Settle(net.Reply(old(|net.log|)))
  {
    r := MakeRequest(net, endpoint, PUT, Some(JObj(map["entity_status" := JStr(status)])), JsonHeaders(account));
  }

  method PauseCampaign(net: Network, account: Account, campaignId: string) returns (r: Outcome<JsValue>)
    modifies net
    ensures net.log == old(net.log) + [StatusRequest(account, CampaignPath(account, campaignId), "PAUSED")]
    ensures r == DataOf(Settle(net.Reply(old(|net.log|))), "data")
  {
    var response := SetStatus(net, account, CampaignPath(account, campaignId), "PAUSED");
    r := DataOf(response, "data");
  }

  method ResumeCampaign(net: Network, account: Account, campaignId: string) returns (r: Outcome<JsValue>)
    modifies net
    ensures net.log == old(net.log) + [StatusRequest(account, CampaignPath(account, campaignId), "ACTIVE")]
    ensures r == DataOf(Settle(net.Reply(old(|net.log|))), "data")
  {
    var response := SetStatus(net, account, CampaignPath(account, campaignId), "ACTIVE");
    r := DataOf(response, "data");
  }

  /** A soft delete: `entity_status` DELETED; true exactly when the request succeeds, and never a throw. */
  method DeleteCampaign(net: Network, account: Account, campaignId: string) returns (ok: bool)
    modifies net
    ensures net.log == old(net.log) + [StatusRequest(account, CampaignPath(account, campaignId), "DELETED")]
    ensures ok <==> net.Reply(old(|net.log|)).Ok?
  {
    var response := SetStatus(net, account, CampaignPath(account, campaignId), "DELETED");
    ok := Succeeded(response);
  }

  /** The ad's id is used as the id of its line item, as written. */
  method PauseAd(net: Network, account: Account, adId: string) returns (r: Outcome<JsValue>)
    modifies net
    ensures net.log == old(net.log) + [StatusRequest(account, LineItemPath(account.accountId, adId), "PAUSED")]
    ensures r == DataOf(Settle(net.Reply(old(|net.log|))), "data")
  {
    var response := SetStatus(net, account, LineItemPath(account.accountId, adId), "PAUSED");
    r := DataOf(response, "data");
  }

  method ResumeAd(net: Network, account: Account, adId: string) returns (r: Outcome<JsValue>)
    modifies net
    ensures net.log == old(net.log) + [StatusRequest(account, LineItemPath(account.accountId, adId), "ACTIVE")]
    ensures r == DataOf(Settle(net.Reply(old(|net.log|))), "data")
  {
    var response := SetStatus(net, account, LineItemPath(account.accountId, adId), "ACTIVE");
    r := DataOf(response, "data");
  }

  method DeleteAd(net: Network, account: Account, adId: string) returns (ok: bool)
    modifies net
    ensures net.log == old(net.log) + [StatusRequest(account, LineItemPath(account.accountId, adId), "DELETED")]
    ensures ok <==> net.Reply(old(|net.log|)).Ok?
  {
    var response := SetStatus(net, account, LineItemPath(account.accountId, adId), "DELETED");
    ok := Succeeded(response);
  }

  // ---------------------------------------------------------------------------
  // Ads: line item, then (unless given) the tweet, then the promoted tweet

  /** `adData.bid_amount ? adData.bid_amount * 1000000 : 10000000`. */
  function BidMicros(input: Fields): (j: Json)
    ensures !Truthy(Lookup(input, "bid_amount")) ==> j == JNum(DefaultBidMicros)
    ensures Truthy(Lookup(input, "bid_amount")) && NumberOf(input["bid_amount"]).Some? ==>
      j == JNum(NumberOf(input["bid_amount"]).value * MicrosPerUnit)
  {
    if Truthy(Lookup(input, "bid_amount")) then
      ScaledWhole(input["bid_amount"], MicrosPerUnit);
      Scaled(input["bid_amount"], MicrosPerUnit)
    else JNum(DefaultBidMicros)
  }

  function LineItemData(campaignId: string, input: Fields): Fields {
    map["campaign_id" := JStr(campaignId),
        "name" := OrDefault(input, "line_item_name", JStr(Interp(Lookup(input, "name")) + " Line Item")),
        "bid_amount_local_micro" := BidMicros(input),
        "product_type" := JStr("PROMOTED_TWEETS"),
        "objective" := OrDefault(input, "objective", JStr("TWEET_ENGAGEMENTS")),
        "placements" := OrDefault(input, "placements", JArr([JStr("ALL_ON_TWITTER")])),
        "entity_status" := OrDefault(input, "status", JStr("PAUSED"))]
  }

  /** The line item belongs to the campaign, is named after the ad unless `line_item_name` is given, and bids in micro-units. */
  lemma LineItemIdentity(campaignId: string, input: Fields)
    ensures var d := LineItemData(campaignId, input);
      d["campaign_id"] == JStr(campaignId) &&
      d["name"] == OrDefault(input, "line_item_name", JStr(Interp(Lookup(input, "name")) + " Line Item")) &&
      d["bid_amount_local_micro"] == BidMicros(input)
  {
  }

  /** It promotes tweets, for TWEET_ENGAGEMENTS, everywhere on Twitter and PAUSED, unless the input says otherwise. */
  lemma LineItemDefaults(campaignId: string, input: Fields)
    ensures var d := LineItemData(campaignId, input);
      d.Keys == {"campaign_id", "name", "bid_amount_local_micro", "product_type", "objective", "placements", "entity_status"} &&
      d["product_type"] == JStr("PROMOTED_TWEETS") &&
      d["objective"] == OrDefault(input, "objective", JStr("TWEET_ENGAGEMENTS")) &&
      d["placements"] == OrDefault(input, "placements", JArr([JStr("ALL_ON_TWITTER")])) &&
      d["entity_status"] == OrDefault(input, "status", JStr("PAUSED"))
  {
  }

  function LineItemRequest(a: Account, campaignId: string, input: Fields): Request {
    RequestOptions(AccountPath(Interp(Lookup(input, "accountId"))) + "/line_items", POST,
                   Some(JObj(LineItemData(campaignId, input))), JsonHeaders(a))
  }

  function TweetRequest(a: Account, input: Fields): Request {
    RequestOptions(AuthBaseUrl + "/tweets", POST, Some(JObj(With(map[], "text", Lookup(input, "text")))), JsonHeaders(a))
  }

  /** The promoted tweet ties the tweet to the line item. */
  function PromotedRequest(a: Account, input: Fields, lineItemId: Json, tweetId: Json): Request {
    RequestOptions(AccountPath(Interp(Lookup(input, "accountId"))) + "/promoted_tweets", POST,
                   Some(JObj(map["line_item_id" := lineItemId, "tweet_ids" := JArr([tweetId])])), JsonHeaders(a))
  }

  /** `{line_item: lineItemResponse.data, promoted_tweet: promotedTweetResponse.data}`. */
  function AdResult(lineItem: Json, promoted: Outcome<JsValue>): (r: Outcome<Json>)
    ensures promoted.Throws? ==> r == Throws(promoted.error)
    ensures promoted.Returns? ==>
      r.Returns? && r.value.JObj? && "line_item" in r.value.fields && r.value.fields["line_item"] == lineItem &&
      Field(Some(r.value), "promoted_tweet") == promoted.value
  {
    match promoted
    case Throws(e) => Throws(e)
    case Returns(v) => Returns(JObj(With(map["line_item" := lineItem], "promoted_tweet", v)))
  }

  /**
   * `createAd`. The line item goes first; one that fails or comes back
   * without `data.id` stops everything. A truthy `tweet_id` is promoted as
   * is; otherwise a tweet is posted first, and one without `data.id` stops
   * the workflow before the promotion. The promoted tweet names the line
   * item's id and the tweet's.
   */
  method CreateAd(net: Network, account: Account, campaignId: string, adData: Fields) returns (r: Outcome<Json>)
    modifies net
    ensures var line := Settle(net.Reply(old(|net.log|)));
      !HasTruthyIn(line, "data", "id") ==>
        net.log == old(net.log) + [LineItemRequest(account, campaignId, adData)] &&
        r == Throws(StepFailure(line, "line item"))
    ensures var line := Settle(net.Reply(old(|net.log|)));
      HasTruthyIn(line, "data", "id") && Truthy(Lookup(adData, "tweet_id")) ==>
        net.log == old(net.log) + [LineItemRequest(account, campaignId, adData),
                                   PromotedRequest(account, adData, CreatedDataId(line), adData["tweet_id"])] &&
        r == AdResult(Field(Body(line), "data").value, DataOf(Settle(net.Reply(old(|net.log|) + 1)), "data"))
    ensures var line := Settle(net.Reply(old(|net.log|)));
      var tweet := Settle(net.Reply(old(|net.log|) + 1));
      HasTruthyIn(line, "data", "id") && !Truthy(Lookup(adData, "tweet_id")) && !HasTruthyIn(tweet, "data", "id") ==>
        net.log == old(net.log) + [LineItemRequest(account, campaignId, adData), TweetRequest(account, adData)] &&
        r == Throws(StepFailure(tweet, "tweet"))
    ensures var line := Settle(net.Reply(old(|net.log|)));
      var tweet := Settle(net.Reply(old(|net.log|) + 1));
      HasTruthyIn(line, "data", "id") && !Truthy(Lookup(adData, "tweet_id")) && HasTruthyIn(tweet, "data", "id") ==>
        net.log == old(net.log) + [LineItemRequest(account, campaignId, adData), TweetRequest(account, adData),
                                   PromotedRequest(account, adData, CreatedDataId(line), CreatedDataId(tweet))] &&
        r == AdResult(Field(Body(line), "data").value, DataOf(Settle(net.Reply(old(|net.log|) + 2)), "data"))
  {
    ghost var start := net.log;
    var accountPath := BaseUrl + "/accounts/" + Interp(Lookup(adData, "accountId"));
    var lineItemResponse := MakeRequest(net, accountPath + "/line_items", POST,
                                        Some(JObj(LineItemData(campaignId, adData))), JsonHeaders(account));
    assert net.log == start + [LineItemRequest(account, campaignId, adData)];
    if !HasTruthyIn(lineItemResponse, "data", "id") {
      return Throws(StepFailure(lineItemResponse, "line item"));
    }
    var lineItemId := CreatedDataId(lineItemResponse);
    var tweetId := Lookup(adData, "tweet_id");
    if !Truthy(tweetId) {
      var tweetResponse := MakeRequest(net, AuthBaseUrl + "/tweets", POST,
                                       Some(JObj(With(map[], "text", Lookup(adData, "text")))), JsonHeaders(account));
      assert net.log == start + [LineItemRequest(account, campaignId, adData), TweetRequest(account, adData)];
      if !HasTruthyIn(tweetResponse, "data", "id") {
        return Throws(StepFailure(tweetResponse, "tweet"));
      }
      tweetId := Some(CreatedDataId(tweetResponse));
    }
    var promotedTweetResponse := MakeRequest(net, accountPath + "/promoted_tweets", POST,
                                             Some(JObj(map["line_item_id" := lineItemId, "tweet_ids" := JArr([tweetId.value])])),
                                             JsonHeaders(account));
    r := AdResult(Field(Body(lineItemResponse), "data").value, DataOf(promotedTweetResponse, "data"));
  }

  /** An ad update, made on its line item: only the supplied name, status (as `entity_status`) and bid (in micro-units). */
  function AdUpdate(input: Fields): (d: Fields)
    ensures CopiedIfTruthy(d, input, "name", "name") && CopiedIfTruthy(d, input, "status", "entity_status")
    ensures SentScaled(d, input, "bid_amount", "bid_amount_local_micro", MicrosPerUnit)
    ensures d.Keys <= {"name", "entity_status", "bid_amount_local_micro"}
  {
    ScaleTruthy(CopyTruthy(CopyTruthy(map[], input, "name", "name"), input, "status", "entity_status"),
                input, "bid_amount", "bid_amount_local_micro", MicrosPerUnit)
  }

  /** `updateAd`: without a truthy `line_item_id` it throws before sending anything. */
  method UpdateAd(net: Network, account: Account, adId: string, adData: Fields) returns (r: Outcome<JsValue>)
    modifies net
    ensures !Truthy(Lookup(adData, "line_item_id")) ==> net.log == old(net.log) && r == Throws(MissingLineItemId)
    ensures Truthy(Lookup(adData, "line_item_id")) ==>
      net.log == old(net.log) +
        [RequestOptions(LineItemPath(Interp(Lookup(adData, "accountId")), Interp(Lookup(adData, "line_item_id"))), PUT,
                        Some(JObj(AdUpdate(adData))), JsonHeaders(account))] &&
      r == DataOf(Settle(net.Reply(old(|net.log|))), "data")
  {
    var lineItemId := Lookup(adData, "line_item_id");
    if !Truthy(lineItemId) {
      return Throws(MissingLineItemId);
    }
    var endpoint := BaseUrl + "/accounts/" + Interp(Lookup(adData, "accountId")) + "/line_items/" + Interp(lineItemId);
    var data: Fields := map[];
    if Truthy(Lookup(adData, "name")) {
      data := data["name" := adData["name"]];
    }
    if Truthy(Lookup(adData, "status")) {
      data := data["entity_status" := adData["status"]];
    }
    if Truthy(Lookup(adData, "bid_amount")) {
      data := data["bid_amount_local_micro" := Scaled(adData["bid_amount"], MicrosPerUnit)];
    }
    var response := MakeRequest(net, endpoint, PUT, Some(JObj(data)), JsonHeaders(account));
    r := DataOf(response, "data");
  }

  // ---------------------------------------------------------------------------
  // Statistics

  /** The entity filter is added exactly when both the entity's id and type are given. */
  function AnalyticsEndpoint(a: Account, entityId: Option<string>, entityType: Option<string>): (e: string)
    ensures Present(entityId) && Present(entityType) ==>
      e == BaseUrl + "/stats/accounts/" + a.accountId + "?entity=" + entityType.value + "&entity_ids=" + entityId.value +
           "&metric_groups=ENGAGEMENT,BILLING"
    ensures !(Present(entityId) && Present(entityType)) ==>
      e == BaseUrl + "/stats/accounts/" + a.accountId + "?metric_groups=ENGAGEMENT,BILLING"
  {
    if Present(entityId) && Present(entityType) then
      BaseUrl + "/stats/accounts/" + a.accountId + "?entity=" + entityType.value + "&entity_ids=" + entityId.value +
      "&metric_groups=ENGAGEMENT,BILLING"
    else
      BaseUrl + "/stats/accounts/" + a.accountId + "?metric_groups=ENGAGEMENT,BILLING"
  }

  method GetAnalytics(net: Network, account: Account, entityId: Option<string>, entityType: Option<string>) returns (r: Outcome<JsValue>)
    modifies net
    ensures net.log == old(net.log) + [RequestOptions(AnalyticsEndpoint(account, entityId, entityType), GET, None, Bearer(account.accessToken))]
    ensures r == DataOf(Settle(net.Reply(old(|net.log|))), "data")
  {
    var endpoint;
    if Present(entityId) && Present(entityType) {
      endpoint := BaseUrl + "/stats/accounts/" + account.accountId + "?entity=" + entityType.value + "&entity_ids=" + entityId.value +
                  "&metric_groups=ENGAGEMENT,BILLING";
    } else {
      endpoint := BaseUrl + "/stats/accounts/" + account.accountId + "?metric_groups=ENGAGEMENT,BILLING";
    }
    var response := MakeRequest(net, endpoint, GET, None, Bearer(account.accessToken));
    r := DataOf(response, "data");
  }
}
