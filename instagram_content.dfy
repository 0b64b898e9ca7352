/**
 * The Instagram content adapter (`InstagramAdapter`), on the Facebook Graph
 * API. Its operations neither loop nor update anything, so each is a
 * function of the replies the platform gives: `replies[i]` answers the i-th
 * request the operation sends (and a missing reply is a network failure).
 * Each yields the requests it sent, in order, and its result.
 */
module InstagramContent {
  import opened Js
  import opened ApiRequestManager
  import opened SocialMediaAccounts
  import opened AdapterSupport

  const BaseUrl := "https://graph.facebook.com/v18.0"
  const DefaultExpiresIn := 5184000

  /** What an operation sent and what it returned. */
  datatype Exchange<T> = Exchange(sent: seq<Request>, result: T)

  /** The reply to the i-th request, as the scripted network gives it. */
  function ReplyAt(replies: seq<Response>, i: nat): Response {
    if i < |replies| then replies[i] else Dropped
  }

  /** The replies are the script of a network: its i-th request gets the same answer. */
  lemma ReplyAtNetwork(net: Network, i: nat)
    ensures ReplyAt(net.script, i) == net.Reply(i)
  {
  }

  function Outcome0(replies: seq<Response>): Outcome<Json> {
    Settle(ReplyAt(replies, 0))
  }

  // ---------------------------------------------------------------------------
  // Authentication

  function AuthenticateRequest(a: Account): Request {
    RequestOptions(BaseUrl + "/" + a.accountId + "?fields=id,username&access_token=" + a.accessToken, GET, None, map[])
  }

  /**
   * A reply with a truthy `id` activates the account and takes its
   * `username` (or keeps the old name); the account id is not touched.
   * Anything else, a failure included, expires the account.
   */
  function Authenticate(a: Account, replies: seq<Response>): (e: Exchange<Account>)
    ensures e.sent == [AuthenticateRequest(a)]
    ensures var r := Outcome0(replies);
      (e.result.status == Active <==> HasTruthy(r, "id")) &&
      (e.result.status != Active ==> e.result == Expire(a)) &&
      (e.result.status == Active ==>
        e.result.accountId == a.accountId &&
        e.result == a.(status := Active,
                       accountName := if Truthy(Field(Body(r), "username")) then TextOf(Field(Body(r), "username").value) else a.accountName))
  {
    var r := Outcome0(replies);
    var b := if !HasTruthy(r, "id") then Expire(a)
             else a.(status := Active, accountName := TextOf(Or(Field(Body(r), "username"), JStr(a.accountName))));
    Exchange([AuthenticateRequest(a)], b)
  }

  // ---------------------------------------------------------------------------
  // Token refresh

  function ExchangeHeaders(refreshToken: string, env: Credentials): Headers {
    map["client_id" := EnvString(env.clientId), "client_secret" := EnvString(env.clientSecret),
        "grant_type" := "fb_exchange_token", "fb_exchange_token" := refreshToken]
  }

  function RefreshRequest(refreshToken: string, env: Credentials): Request {
    RequestOptions(BaseUrl + "/oauth/access_token", GET, None, ExchangeHeaders(refreshToken, env))
  }

  /**
   * Without a refresh token nothing is sent and the account expires;
   * otherwise the exchange's reply settles it, with a 60-day default expiry
   * and the refresh token left as it was.
   */
  function RefreshToken(a: Account, env: Credentials, replies: seq<Response>, now: int): (e: Exchange<Account>)
    ensures !Present(a.refreshToken) ==> e == Exchange([], Expire(a))
    ensures Present(a.refreshToken) ==>
      e.sent == [RefreshRequest(a.refreshToken.value, env)] &&
      e.result == Refreshed(a, Outcome0(replies), now, DefaultExpiresIn, false)
    ensures e.result.refreshToken == a.refreshToken
  {
    if !Present(a.refreshToken) then Exchange([], Expire(a))
    else Exchange([RefreshRequest(a.refreshToken.value, env)], Refreshed(a, Outcome0(replies), now, DefaultExpiresIn, false))
  }

  // ---------------------------------------------------------------------------
  // Publishing

  /** The container for the first media URL, captioned with the text or "". */
  function ContainerRequest(a: Account, c: Content): Request
    requires HasMedia(c)
  {
    var caption := if Present(c.text) then c.text.value else "";
    RequestOptions(BaseUrl + "/" + a.accountId + "/media", POST,
                   Some(JObj(map["image_url" := JStr(c.mediaUrls.value[0]), "caption" := JStr(caption),
                                 "access_token" := JStr(a.accessToken)])), map[])
  }

  function PublishRequest(a: Account, creationId: Json): Request {
    RequestOptions(BaseUrl + "/" + a.accountId + "/media_publish", POST,
                   Some(JObj(map["creation_id" := creationId, "access_token" := JStr(a.accessToken)])), map[])
  }

  /**
   * `publishContent`: a post without media throws before anything is sent.
   * Otherwise the container request goes first; a container reply without
   * an id throws before the publish request; the publish request names the
   * container, and its reply is the result.
   */
  function PublishContent(a: Account, c: Content, replies: seq<Response>): (e: Exchange<Outcome<Json>>)
    ensures !HasMedia(c) ==> e == Exchange([], Throws(MediaRequired))
    ensures HasMedia(c) ==> 1 <= |e.sent| <= 2 && e.sent[0] == ContainerRequest(a, c)
    ensures HasMedia(c) && Outcome0(replies).Throws? ==> e == Exchange([ContainerRequest(a, c)], Outcome0(replies))
    ensures HasMedia(c) && Outcome0(replies).Returns? && !HasTruthy(Outcome0(replies), "id") ==>
      e == Exchange([ContainerRequest(a, c)], Throws(NotCreated("container")))
    ensures HasMedia(c) && HasTruthy(Outcome0(replies), "id") ==>
      e == Exchange([ContainerRequest(a, c), PublishRequest(a, Field(Body(Outcome0(replies)), "id").value)],
                    Settle(ReplyAt(replies, 1)))
  {
    if !HasMedia(c) then Exchange([], Throws(MediaRequired))
    else
      var container := Outcome0(replies);
      if container.Throws? then Exchange([ContainerRequest(a, c)], Throws(container.error))
      else if !HasTruthy(container, "id") then Exchange([ContainerRequest(a, c)], Throws(NotCreated("container")))
      else
        var creationId := Field(Body(container), "id").value;
        Exchange([ContainerRequest(a, c), PublishRequest(a, creationId)], Settle(ReplyAt(replies, 1)))
  }

  /** Only the first media URL is sent, and the text only as caption. */
  lemma PublishUsesFirstUrl(a: Account, c: Content, replies: seq<Response>)
    requires HasMedia(c)
    ensures PublishContent(a, c, replies) == PublishContent(a, c.(mediaUrls := Some([c.mediaUrls.value[0]])), replies)
  {
  }

  /** `scheduleContent`: nothing is sent; the acknowledgement is built from the clock. */
  function ScheduleContent(nowMs: int, scheduledTime: string): (e: Exchange<Json>)
    ensures e.sent == [] && e.result == ScheduledAck(nowMs, scheduledTime)
  {
    Exchange([], ScheduledAck(nowMs, scheduledTime))
  }

  // ---------------------------------------------------------------------------
  // Single-request operations

  /** `deleteContent`: one DELETE (the token passed as data is dropped); true exactly when it succeeds. */
  function DeleteContent(a: Account, contentId: string, replies: seq<Response>): (e: Exchange<bool>)
    ensures e.sent == [RequestOptions(BaseUrl + "/" + contentId, DELETE, Some(JObj(map["access_token" := JStr(a.accessToken)])), map[])]
    ensures e.sent[0].body.None? && e.sent[0].headers == JsonContentType
    ensures e.result <==> ReplyAt(replies, 0).Ok?
  {
    var request := RequestOptions(BaseUrl + "/" + contentId, DELETE, Some(JObj(map["access_token" := JStr(a.accessToken)])), map[]);
    Exchange([request], Succeeded(Outcome0(replies)))
  }

  function AnalyticsEndpoint(a: Account, contentId: Option<string>): (s: string)
    ensures Present(contentId) ==>
      s == BaseUrl + "/" + contentId.value + "/insights?metric=engagement,impressions,reach&access_token=" + a.accessToken
    ensures !Present(contentId) ==>
      s == BaseUrl + "/" + a.accountId + "/insights?metric=impressions,reach,profile_views&period=day&access_token=" + a.accessToken
  {
    if Present(contentId) then
      BaseUrl + "/" + contentId.value + "/insights?metric=engagement,impressions,reach&access_token=" + a.accessToken
    else
      BaseUrl + "/" + a.accountId + "/insights?metric=impressions,reach,profile_views&period=day&access_token=" + a.accessToken
  }

  function GetAnalytics(a: Account, contentId: Option<string>, replies: seq<Response>): (e: Exchange<Outcome<JsValue>>)
    ensures e.sent == [RequestOptions(AnalyticsEndpoint(a, contentId), GET, None, map[])]
    ensures e.result == DataOf(Outcome0(replies), "data")
  {
    Exchange([RequestOptions(AnalyticsEndpoint(a, contentId), GET, None, map[])], DataOf(Outcome0(replies), "data"))
  }

  /** `getComments`: the reply's `data`, or [] when it is absent or the request fails. */
  function GetComments(a: Account, contentId: string, replies: seq<Response>): (e: Exchange<Json>)
    ensures e.sent == [RequestOptions(BaseUrl + "/" + contentId + "/comments?access_token=" + a.accessToken, GET, None, map[])]
    ensures e.result == CommentsOf(Outcome0(replies), "data")
    ensures !ReplyAt(replies, 0).Ok? ==> e.result == JArr([])
    ensures ReplyAt(replies, 0).Ok? && !Truthy(Field(Some(ReplyAt(replies, 0).body), "data")) ==> e.result == JArr([])
    ensures ReplyAt(replies, 0).Ok? && Truthy(Field(Some(ReplyAt(replies, 0).body), "data")) ==>
      Some(e.result) == Field(Some(ReplyAt(replies, 0).body), "data")
  {
    Exchange([RequestOptions(BaseUrl + "/" + contentId + "/comments?access_token=" + a.accessToken, GET, None, map[])],
             CommentsOf(Outcome0(replies), "data"))
  }

  /** The reply's payload: the message and the token. */
  function ReplyData(a: Account, reply: string): Json {
    JObj(map["message" := JStr(reply), "access_token" := JStr(a.accessToken)])
  }

  /** `replyToComment`: one POST to the comment's replies edge, returning the reply. */
  function ReplyToComment(a: Account, commentId: string, reply: string, replies: seq<Response>): (e: Exchange<Outcome<Json>>)
    ensures e.sent == [RequestOptions(BaseUrl + "/" + commentId + "/replies", POST, Some(ReplyData(a, reply)), map[])]
    ensures e.sent[0].verb == POST && e.sent[0].headers == JsonContentType
    ensures e.sent[0].body == Some(JObj(map["message" := JStr(reply), "access_token" := JStr(a.accessToken)]))
    ensures e.result == Outcome0(replies)
  {
    Exchange([RequestOptions(BaseUrl + "/" + commentId + "/replies", POST, Some(ReplyData(a, reply)), map[])], Outcome0(replies))
  }
}
