/**
 * The Twitter content adapter (`TwitterAdapter`): every operation is the
 * sequence of requests it hands the executor and the value it makes of the
 * replies. Media are uploaded one request per URL before the tweet.
 */
module TwitterContent {
  import opened Js
  import opened ApiRequestManager
  import opened SocialMediaAccounts
  import opened AdapterSupport

  const BaseUrl := "https://api.twitter.com/2"
  const TokenUrl := "https://api.twitter.com/oauth2/token"
  const UploadUrl := "https://upload.twitter.com/1.1/media/upload.json"
  const DefaultExpiresIn := 7200

  function JsonHeaders(token: string): Headers {
    Bearer(token)["Content-Type" := "application/json"]
  }

  // ---------------------------------------------------------------------------
  // Authentication

  function AuthenticateRequest(a: Account): Request {
    RequestOptions(BaseUrl + "/users/me", GET, None, Bearer(a.accessToken))
  }

  /**
   * The account authenticate returns for the reply `r`: active, with the
   * user's id and (when given) username, if the reply has a truthy
   * `data.id`; expired otherwise.
   */
  function Authenticated(a: Account, r: Outcome<Json>): (b: Account)
    ensures b.status == Active <==> HasTruthy(r, "data") && Truthy(Field(Field(Body(r), "data"), "id"))
    ensures b.status != Active ==> b == Expire(a)
    ensures b.status == Active ==>
      var user := Field(Body(r), "data");
      b == a.(status := Active, accountId := TextOf(Field(user, "id").value),
               accountName := if Truthy(Field(user, "username")) then TextOf(Field(user, "username").value) else a.accountName)
  {
    if r.Throws? || !JsonTruthy(r.value) then Expire(a)
    else
      var user := Field(Body(r), "data");
      if !Truthy(user) || !Truthy(Field(user, "id")) then Expire(a)
      else
        a.(status := Active, accountId := TextOf(Field(user, "id").value),
           accountName := TextOf(Or(Field(user, "username"), JStr(a.accountName))))
  }

  method Authenticate(net: Network, account: Account) returns (a: Account)
    modifies net
    ensures net.log == old(net.log) + [AuthenticateRequest(account)]
    ensures a == Authenticated(account, Settle(net.Reply(old(|net.log|))))
  {
    var response := MakeRequest(net, BaseUrl + "/users/me", GET, None, Bearer(account.accessToken));
    a := Authenticated(account, response);
  }

  // ---------------------------------------------------------------------------
  // Token refresh

  function RefreshRequest(refreshToken: string, env: Credentials): Request {
    RequestOptions(TokenUrl, POST,
      Some(JObj(map["grant_type" := JStr("refresh_token"), "refresh_token" := JStr(refreshToken),
                    "client_id" := JStr(EnvString(env.clientId))])),
      map[])
  }

  /**
   * Without a refresh token no request is made and the account expires;
   * otherwise the token endpoint's reply settles it, with a 2-hour default
   * expiry and a rotated refresh token when one is returned.
   */
  method RefreshToken(net: Network, account: Account, env: Credentials, now: int) returns (a: Account)
    modifies net
    ensures !Present(account.refreshToken) ==> net.log == old(net.log) && a == Expire(account)
    ensures Present(account.refreshToken) ==>
      net.log == old(net.log) + [RefreshRequest(account.refreshToken.value, env)] &&
      a == Refreshed(account, Settle(net.Reply(old(|net.log|))), now, DefaultExpiresIn, true)
  {
    if !Present(account.refreshToken) {
      return Expire(account);
    }
    var data := JObj(map["grant_type" := JStr("refresh_token"), "refresh_token" := JStr(account.refreshToken.value),
                         "client_id" := JStr(EnvString(env.clientId))]);
    var response := MakeRequest(net, TokenUrl, POST, Some(data), map[]);
    a := Refreshed(account, response, now, DefaultExpiresIn, true);
  }

  // ---------------------------------------------------------------------------
  // Publishing

  function UploadHeaders(token: string): Headers {
    Bearer(token)["Content-Type" := "application/x-www-form-urlencoded"]
  }

  function UploadRequest(token: string, mediaUrl: string): Request {
    RequestOptions(UploadUrl, POST, Some(JObj(map["media_data" := JStr(mediaUrl)])), UploadHeaders(token))
  }

  /** The upload requests for the first `n` URLs, in order. */
  function UploadRequests(token: string, urls: seq<string>, n: nat): seq<Request>
    requires n <= |urls|
  {
    seq(n, i requires 0 <= i < n => UploadRequest(token, urls[i]))
  }

  /** An upload reply keeps its truthy `media_id_string`; a failed request abandons the loop. */
  function UploadStepOf(r: Outcome<Json>): UploadStep {
    if r.Throws? then Aborted
    else if HasTruthy(r, "media_id_string") then Kept(Field(Body(r), "media_id_string").value)
    else Skipped
  }

  /** How the next `n` upload requests end when `k` requests have been sent. */
  function UploadSteps(net: Network, k: nat, n: nat): seq<UploadStep>
  {
    seq(n, i requires 0 <= i < n => UploadStepAt(net, k + i))
  }

  /** How the upload request sent as the j-th request ever ends. */
  function UploadStepAt(net: Network, j: nat): UploadStep {
    UploadStepOf(Settle(net.Reply(j)))
  }

  /**
   * `uploadMedia`: one request per URL, in order; the ids of the replies
   * that carry one, in order; nothing at all once a request fails (and no
   * further request is sent).
   */
  method UploadMedia(net: Network, account: Account, mediaUrls: seq<string>) returns (mediaIds: seq<Json>)
    modifies net
    ensures var steps := UploadSteps(net, old(|net.log|), |mediaUrls|);
      net.log == old(net.log) + UploadRequests(account.accessToken, mediaUrls, Issued(steps)) &&
      mediaIds == Collected(steps)
  {
    ghost var steps := UploadSteps(net, |net.log|, |mediaUrls|);
    ghost var start := net.log;
    mediaIds := [];
    var i := 0;
    while i < |mediaUrls|
      invariant i <= |mediaUrls|
      invariant |net.log| == |start| + i
      invariant net.log == start + UploadRequests(account.accessToken, mediaUrls, i)
      invariant NoAbortBefore(steps, i) && mediaIds == KeptBefore(steps, i)
    {
      UploadRequestsSnoc(account.accessToken, mediaUrls, i);
      var step := UploadOne(net, account.accessToken, mediaUrls[i]);
      assert step == steps[i];
      if step.Aborted? {
        UploadAbort(steps, i);
        return [];
      }
      if step.Kept? {
        mediaIds := mediaIds + [step.item];
      }
      i := i + 1;
    }
    UploadFinish(steps, i);
  }

  /** One iteration of the upload loop: the request for `mediaUrl`, classified. */
  method UploadOne(net: Network, token: string, mediaUrl: string) returns (step: UploadStep)
    modifies net
    ensures net.log == old(net.log) + [UploadRequest(token, mediaUrl)]
    ensures step == UploadStepAt(net, old(|net.log|))
  {
    var response := MakeRequest(net, UploadUrl, POST, Some(JObj(map["media_data" := JStr(mediaUrl)])), UploadHeaders(token));
    step := UploadStepOf(response);
  }

  lemma UploadRequestsSnoc(token: string, urls: seq<string>, i: nat)
    requires i < |urls|
    ensures UploadRequests(token, urls, i + 1) == UploadRequests(token, urls, i) + [UploadRequest(token, urls[i])]
  {
  }

  /** The tweet payload: the text, and the media ids only when some were collected. */
  function TweetData(text: Option<string>, mediaIds: seq<Json>): (d: Fields)
    ensures "text" in d <==> text.Some?
    ensures text.Some? ==> d["text"] == JStr(text.value)
    ensures "media" in d <==> |mediaIds| > 0
    ensures |mediaIds| > 0 ==> d["media"] == JObj(map["media_ids" := JArr(mediaIds)])
    ensures d.Keys <= {"text", "media"}
  {
    WithIf(With(map[], "text", OptStr(text)), "media", |mediaIds| > 0, JObj(map["media_ids" := JArr(mediaIds)]))
  }

  function TweetRequest(account: Account, text: Option<string>, mediaIds: seq<Json>): Request {
    RequestOptions(BaseUrl + "/tweets", POST, Some(JObj(TweetData(text, mediaIds))), JsonHeaders(account.accessToken))
  }

  /**
   * `publishContent`: with media, the uploads come first; the tweet carries
   * the ids collected. The result is the reply's `data`.
   */
  method PublishContent(net: Network, account: Account, content: Content) returns (r: Outcome<JsValue>)
    modifies net
    ensures !HasMedia(content) ==>
      net.log == old(net.log) + [TweetRequest(account, content.text, [])] &&
      r == DataOf(Settle(net.Reply(old(|net.log|))), "data")
    ensures HasMedia(content) ==>
      var steps := UploadSteps(net, old(|net.log|), |content.mediaUrls.value|);
      var n := Issued(steps);
      net.log == old(net.log) + UploadRequests(account.accessToken, content.mediaUrls.value, n) +
                 [TweetRequest(account, content.text, Collected(steps))] &&
      r == DataOf(Settle(net.Reply(old(|net.log|) + n)), "data")
  {
    var data := With(map[], "text", OptStr(content.text));
    var mediaIds: seq<Json> := [];
    if content.mediaUrls.Some? && |content.mediaUrls.value| > 0 {
      mediaIds := UploadMedia(net, account, content.mediaUrls.value);
      if |mediaIds| > 0 {
        data := data["media" := JObj(map["media_ids" := JArr(mediaIds)])];
      }
    }
    assert data == TweetData(content.text, mediaIds);
    var response := MakeRequest(net, BaseUrl + "/tweets", POST, Some(JObj(data)), JsonHeaders(account.accessToken));
    r := DataOf(response, "data");
  }

  // ---------------------------------------------------------------------------
  // Single-request operations

  function DeleteRequest(account: Account, contentId: string): Request {
    RequestOptions(BaseUrl + "/tweets/" + contentId, DELETE, None, Bearer(account.accessToken))
  }

  /** `deleteContent`: true exactly when the request succeeds; it never throws. */
  method DeleteContent(net: Network, account: Account, contentId: string) returns (ok: bool)
    modifies net
    ensures net.log == old(net.log) + [DeleteRequest(account, contentId)]
    ensures ok <==> net.Reply(old(|net.log|)).Ok?
  {
    var response := MakeRequest(net, BaseUrl + "/tweets/" + contentId, DELETE, None, Bearer(account.accessToken));
    ok := Succeeded(response);
  }

  /** The endpoint getAnalytics queries: one tweet's metrics, or the user's. */
  function AnalyticsEndpoint(account: Account, contentId: Option<string>): (e: string)
    ensures Present(contentId) ==> e == BaseUrl + "/tweets/" + contentId.value + "?tweet.fields=public_metrics,non_public_metrics"
    ensures !Present(contentId) ==> e == BaseUrl + "/users/" + account.accountId + "?user.fields=public_metrics"
  {
    if Present(contentId) then BaseUrl + "/tweets/" + contentId.value + "?tweet.fields=public_metrics,non_public_metrics"
    else BaseUrl + "/users/" + account.accountId + "?user.fields=public_metrics"
  }

  method GetAnalytics(net: Network, account: Account, contentId: Option<string>) returns (r: Outcome<JsValue>)
    modifies net
    ensures net.log == old(net.log) + [RequestOptions(AnalyticsEndpoint(account, contentId), GET, None, Bearer(account.accessToken))]
    ensures r == DataOf(Settle(net.Reply(old(|net.log|))), "data")
  {
    var endpoint := AnalyticsEndpoint(account, contentId);
    var response := MakeRequest(net, endpoint, GET, None, Bearer(account.accessToken));
    r := DataOf(response, "data");
  }

  function CommentsEndpoint(contentId: string): string {
    BaseUrl + "/tweets/search/recent?query=conversation_id:" + contentId
  }

  /** `getComments`: the conversation search's `data`, or [] when absent or on failure. */
  method GetComments(net: Network, account: Account, contentId: string) returns (comments: Json)
    modifies net
    ensures net.log == old(net.log) + [RequestOptions(CommentsEndpoint(contentId), GET, None, Bearer(account.accessToken))]
    ensures comments == CommentsOf(Settle(net.Reply(old(|net.log|))), "data")
  {
    var response := MakeRequest(net, CommentsEndpoint(contentId), GET, None, Bearer(account.accessToken));
    comments := CommentsOf(response, "data");
  }

  /** The reply payload names the tweet answered. */
  function ReplyData(commentId: string, reply: string): Json {
    JObj(map["text" := JStr(reply), "reply" := JObj(map["in_reply_to_tweet_id" := JStr(commentId)])])
  }

  method ReplyToComment(net: Network, account: Account, commentId: string, reply: string) returns (r: Outcome<JsValue>)
    modifies net
    ensures net.log == old(net.log) + [RequestOptions(BaseUrl + "/tweets", POST, Some(ReplyData(commentId, reply)), JsonHeaders(account.accessToken))]
    ensures r == DataOf(Settle(net.Reply(old(|net.log|))), "data")
  {
    var response := MakeRequest(net, BaseUrl + "/tweets", POST, Some(ReplyData(commentId, reply)), JsonHeaders(account.accessToken));
    r := DataOf(response, "data");
  }
}
