/**
 * The Facebook content adapter (`FacebookAdapter`): Graph API requests that
 * carry the access token in the query string or the body. A post goes to
 * the feed, the photos or the videos edge according to its first media URL.
 */
module FacebookContent {
  import opened Js
  import opened ApiRequestManager
  import opened SocialMediaAccounts
  import opened AdapterSupport

  const BaseUrl := "https://graph.facebook.com/v18.0"
  const DefaultExpiresIn := 5184000

  // ---------------------------------------------------------------------------
  // Authentication

  function AuthenticateRequest(a: Account): Request {
    RequestOptions(BaseUrl + "/me?access_token=" + a.accessToken, GET, None, map[])
  }

  /**
   * The account authenticate returns for the reply `r`: a truthy `id`
   * activates it with that id and the reply's `name`, or the old name when
   * the reply has none; anything else expires it.
   */
  function Authenticated(a: Account, r: Outcome<Json>): (b: Account)
    ensures b.status == Active <==> HasTruthy(r, "id")
    ensures b.status != Active ==> b == Expire(a)
    ensures b.status == Active ==>
      b.id == a.id && b.userId == a.userId && b.platform == a.platform &&
      b.accessToken == a.accessToken && b.refreshToken == a.refreshToken && b.tokenExpiry == a.tokenExpiry &&
      b.accountId == TextOf(Field(Body(r), "id").value) &&
      b.accountName == (if Truthy(Field(Body(r), "name")) then TextOf(Field(Body(r), "name").value) else a.accountName)
  {
    if !HasTruthy(r, "id") then Expire(a)
    else
      a.(status := Active, accountId := TextOf(Field(Body(r), "id").value),
         accountName := TextOf(Or(Field(Body(r), "name"), JStr(a.accountName))))
  }

  method Authenticate(net: Network, account: Account) returns (a: Account)
    modifies net
    ensures net.log == old(net.log) + [AuthenticateRequest(account)]
    ensures a == Authenticated(account, Settle(net.Reply(old(|net.log|))))
  {
    var response := MakeRequest(net, BaseUrl + "/me?access_token=" + account.accessToken, GET, None, map[]);
    a := Authenticated(account, response);
  }

  // ---------------------------------------------------------------------------
  // Token refresh

  /** The token exchange sends the client credentials and the long-lived token as headers of a GET. */
  function ExchangeHeaders(refreshToken: string, env: Credentials): Headers {
    map["client_id" := EnvString(env.clientId), "client_secret" := EnvString(env.clientSecret),
        "grant_type" := "fb_exchange_token", "fb_exchange_token" := refreshToken]
  }

  function RefreshRequest(refreshToken: string, env: Credentials): Request {
    RequestOptions(BaseUrl + "/oauth/access_token", GET, None, ExchangeHeaders(refreshToken, env))
  }

  /**
   * Without a refresh token no request is made and the account expires;
   * otherwise the exchange's reply settles it, with a 60-day default expiry.
   * The refresh token is never replaced.
   */
  method RefreshToken(net: Network, account: Account, env: Credentials, now: int) returns (a: Account)
    modifies net
    ensures !Present(account.refreshToken) ==> net.log == old(net.log) && a == Expire(account)
    ensures Present(account.refreshToken) ==>
      net.log == old(net.log) + [RefreshRequest(account.refreshToken.value, env)] &&
      a == Refreshed(account, Settle(net.Reply(old(|net.log|))), now, DefaultExpiresIn, false)
    ensures a.refreshToken == account.refreshToken
  {
    if !Present(account.refreshToken) {
      return Expire(account);
    }
    var response := MakeRequest(net, BaseUrl + "/oauth/access_token", GET, None, ExchangeHeaders(account.refreshToken.value, env));
    a := Refreshed(account, response, now, DefaultExpiresIn, false);
  }

  // ---------------------------------------------------------------------------
  // Publishing and scheduling

  /** `url.includes('.mp4') || url.includes('.mov')`. */
  predicate IsVideo(url: string) {
    Contains(url, ".mp4") || Contains(url, ".mov")
  }

  /** Where a post goes: the feed without media, else by its first media URL. */
  datatype Route = Feed | Photo(url: string) | Video(url: string)

  function RouteOf(c: Content): (rt: Route)
    ensures !HasMedia(c) <==> rt.Feed?
    ensures HasMedia(c) ==> rt.url == c.mediaUrls.value[0]
    ensures rt.Video? <==> HasMedia(c) && IsVideo(c.mediaUrls.value[0])
  {
    if !HasMedia(c) then Feed
    else
      var url := c.mediaUrls.value[0];
      if IsVideo(url) then Video(url) else Photo(url)
  }

  function Edge(a: Account, rt: Route): string {
    match rt
    case Feed => BaseUrl + "/" + a.accountId + "/feed"
    case Photo(_) => BaseUrl + "/" + a.accountId + "/photos"
    case Video(_) => BaseUrl + "/" + a.accountId + "/videos"
  }

  /**
   * The payload of a post before scheduling fields: the token always; the
   * text as `message` (as `description` for a video); the photo's `url` or
   * the video's `file_url`.
   */
  function PostData(a: Account, c: Content): (d: Fields)
    ensures "access_token" in d && d["access_token"] == JStr(a.accessToken)
    ensures RouteOf(c).Feed? ==> d.Keys == {"access_token"} + (if c.text.Some? then {"message"} else {})
    ensures RouteOf(c).Photo? ==>
      d.Keys == {"access_token", "url"} + (if c.text.Some? then {"message"} else {}) &&
      d["url"] == JStr(c.mediaUrls.value[0])
    ensures RouteOf(c).Video? ==>
      d.Keys == {"access_token", "file_url"} + (if c.text.Some? then {"description"} else {}) &&
      d["file_url"] == JStr(c.mediaUrls.value[0])
    ensures c.text.Some? ==> (if RouteOf(c).Video? then d["description"] else d["message"]) == JStr(c.text.value)
  {
    var token := map["access_token" := JStr(a.accessToken)];
    match RouteOf(c)
    case Feed => With(token, "message", OptStr(c.text))
    case Photo(url) => With(token, "message", OptStr(c.text))["url" := JStr(url)]
    case Video(url) => With(token, "description", OptStr(c.text))["file_url" := JStr(url)]
  }

  /** The one request a post (with `extra` scheduling fields) sends. */
  function PostRequest(a: Account, c: Content, extra: Fields): Request {
    RequestOptions(Edge(a, RouteOf(c)), POST, Some(JObj(PostData(a, c) + extra)), map[])
  }

  /** `Math.floor(new Date(t).getTime() / 1000)` for a time `ms` milliseconds after the epoch; NaN for an invalid date. */
  function Timestamp(ms: Option<int>): (t: Json)
    ensures ms.None? ==> t == JNull
    ensures ms.Some? ==> t.JNum? && t.n * 1000 <= ms.value < t.n * 1000 + 1000
  {
    match ms
    case Some(m) => JNum(m / 1000)
    case None => JNull
  }

  function ScheduleFields(scheduledMs: Option<int>): Fields {
    map["published" := JBool(false), "scheduled_publish_time" := Timestamp(scheduledMs)]
  }

  /** Both publishing operations: one request, routed by the first media URL; the reply is the result. */
  method SendPost(net: Network, account: Account, content: Content, extra: Fields) returns (r: Outcome<Json>)
    modifies net
    ensures net.log == old(net.log) + [PostRequest(account, content, extra)]
    ensures r == Settle(net.Reply(old(|net.log|)))
  {
    var data := With(map["access_token" := JStr(account.accessToken)], "message", OptStr(content.text));
    if content.mediaUrls.Some? && |content.mediaUrls.value| > 0 {
      var mediaUrl := content.mediaUrls.value[0];
      if Contains(mediaUrl, ".mp4") || Contains(mediaUrl, ".mov") {
        var videoData := With(map["access_token" := JStr(account.accessToken)], "description", OptStr(content.text))
                           ["file_url" := JStr(mediaUrl)];
        r := MakeRequest(net, BaseUrl + "/" + account.accountId + "/videos", POST, Some(JObj(videoData + extra)), map[]);
        return;
      } else {
        data := data["url" := JStr(mediaUrl)];
        r := MakeRequest(net, BaseUrl + "/" + account.accountId + "/photos", POST, Some(JObj(data + extra)), map[]);
        return;
      }
    }
    r := MakeRequest(net, BaseUrl + "/" + account.accountId + "/feed", POST, Some(JObj(data + extra)), map[]);
  }

  /** `publishContent`. */
  method PublishContent(net: Network, account: Account, content: Content) returns (r: Outcome<Json>)
    modifies net
    ensures net.log == old(net.log) + [PostRequest(account, content, map[])]
    ensures r == Settle(net.Reply(old(|net.log|)))
  {
    r := SendPost(net, account, content, map[]);
  }

  /** `scheduleContent`: the same routing, unpublished, with the publish time in epoch seconds. */
  method ScheduleContent(net: Network, account: Account, content: Content, scheduledMs: Option<int>) returns (r: Outcome<Json>)
    modifies net
    ensures net.log == old(net.log) + [PostRequest(account, content, ScheduleFields(scheduledMs))]
    ensures r == Settle(net.Reply(old(|net.log|)))
  {
    r := SendPost(net, account, content, ScheduleFields(scheduledMs));
  }

  /** Only the first media URL matters: the rest are neither sent nor looked at. */
  lemma OnlyFirstMediaUrl(a: Account, c: Content, extra: Fields)
    requires HasMedia(c)
    ensures PostRequest(a, c, extra) == PostRequest(a, c.(mediaUrls := Some([c.mediaUrls.value[0]])), extra)
  {
  }

  /**
   * A scheduled post goes where the immediate one would, with the same
   * payload plus `published: false` and the publish time.
   */
  lemma ScheduledLikePublished(a: Account, c: Content, scheduledMs: Option<int>)
    ensures var p := PostRequest(a, c, map[]);
      var s := PostRequest(a, c, ScheduleFields(scheduledMs));
      s.endpoint == p.endpoint && s.body.Some? && s.body.value.JObj? && p.body.Some? && p.body.value.JObj? &&
      s.body.value.fields == p.body.value.fields + ScheduleFields(scheduledMs)
  {
    var d := PostData(a, c);
    assert d + map[] == d;
    RequestOptionsShape(Edge(a, RouteOf(c)), POST, Some(JObj(d)), map[]);
    RequestOptionsShape(Edge(a, RouteOf(c)), POST, Some(JObj(d + ScheduleFields(scheduledMs))), map[]);
  }

  // ---------------------------------------------------------------------------
  // Single-request operations

  /** `deleteContent`: the token it passes as data is dropped, as for every DELETE; true exactly when the request succeeds. */
  method DeleteContent(net: Network, account: Account, contentId: string) returns (ok: bool)
    modifies net
    ensures net.log == old(net.log) + [RequestOptions(BaseUrl + "/" + contentId, DELETE, Some(JObj(map["access_token" := JStr(account.accessToken)])), map[])]
    ensures net.log[|old(net.log)|].body.None?
    ensures ok <==> net.Reply(old(|net.log|)).Ok?
  {
    var response := MakeRequest(net, BaseUrl + "/" + contentId, DELETE, Some(JObj(map["access_token" := JStr(account.accessToken)])), map[]);
    ok := Succeeded(response);
  }

  /** The insights endpoint: the post's, or the page's daily ones. */
  function AnalyticsEndpoint(a: Account, contentId: Option<string>): (e: string)
    ensures Present(contentId) ==>
      e == BaseUrl + "/" + contentId.value + "/insights?metric=post_impressions,post_engagements,post_reactions_by_type_total&access_token=" + a.accessToken
    ensures !Present(contentId) ==>
      e == BaseUrl + "/" + a.accountId + "/insights?metric=page_impressions,page_engaged_users,page_post_engagements&period=day&access_token=" + a.accessToken
  {
    if Present(contentId) then
      BaseUrl + "/" + contentId.value + "/insights?metric=post_impressions,post_engagements,post_reactions_by_type_total&access_token=" + a.accessToken
    else
      BaseUrl + "/" + a.accountId + "/insights?metric=page_impressions,page_engaged_users,page_post_engagements&period=day&access_token=" + a.accessToken
  }

  method GetAnalytics(net: Network, account: Account, contentId: Option<string>) returns (r: Outcome<JsValue>)
    modifies net
    ensures net.log == old(net.log) + [RequestOptions(AnalyticsEndpoint(account, contentId), GET, None, map[])]
    ensures r == DataOf(Settle(net.Reply(old(|net.log|))), "data")
  {
    var endpoint := AnalyticsEndpoint(account, contentId);
    var response := MakeRequest(net, endpoint, GET, None, map[]);
    r := DataOf(response, "data");
  }

  function CommentsEndpoint(a: Account, contentId: string): string {
    BaseUrl + "/" + contentId + "/comments?access_token=" + a.accessToken
  }

  /** `getComments`: the reply's `data`, or [] when absent or on failure. */
  method GetComments(net: Network, account: Account, contentId: string) returns (comments: Json)
    modifies net
    ensures net.log == old(net.log) + [RequestOptions(CommentsEndpoint(account, contentId), GET, None, map[])]
    ensures comments == CommentsOf(Settle(net.Reply(old(|net.log|))), "data")
  {
    var response := MakeRequest(net, CommentsEndpoint(account, contentId), GET, None, map[]);
    comments := CommentsOf(response, "data");
  }

  function ReplyData(a: Account, reply: string): Json {
    JObj(map["message" := JStr(reply), "access_token" := JStr(a.accessToken)])
  }

  method ReplyToComment(net: Network, account: Account, commentId: string, reply: string) returns (r: Outcome<Json>)
    modifies net
    ensures net.log == old(net.log) + [RequestOptions(BaseUrl + "/" + commentId + "/comments", POST, Some(ReplyData(account, reply)), map[])]
    ensures r == Settle(net.Reply(old(|net.log|)))
  {
    r := MakeRequest(net, BaseUrl + "/" + commentId + "/comments", POST, Some(ReplyData(account, reply)), map[]);
  }
}
