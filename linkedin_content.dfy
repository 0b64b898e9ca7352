/**
 * The LinkedIn content adapter (`LinkedInAdapter`): UGC posts, the
 * register-upload loop that precedes a post with media, and the social
 * actions (comments, replies) on a post. Every request names the Rest.li
 * protocol version.
 */
module LinkedInContent {
  import opened Js
  import opened ApiRequestManager
  import opened SocialMediaAccounts
  import opened AdapterSupport

  const BaseUrl := "https://api.linkedin.com/v2"
  const TokenUrl := "https://www.linkedin.com/oauth/v2/accessToken"
  const DefaultExpiresIn := 5184000
  const ShareContentKey := "com.linkedin.ugc.ShareContent"
  const UploadRequestKey := "com.linkedin.digitalmedia.uploading.MediaUploadHttpRequest"

  function RestliHeaders(token: string): Headers {
    Bearer(token)["X-Restli-Protocol-Version" := "2.0.0"]
  }

  function JsonRestliHeaders(token: string): Headers {
    RestliHeaders(token)["Content-Type" := "application/json"]
  }

  /** The member URN of the account: `urn:li:person:<account_id>`. */
  function Person(a: Account): string {
    "urn:li:person:" + a.accountId
  }

  // ---------------------------------------------------------------------------
  // Authentication

  function AuthenticateRequest(a: Account): Request {
    RequestOptions(BaseUrl + "/me", GET, None, Bearer(a.accessToken))
  }

  /**
   * The account authenticate returns for the reply `r`. A truthy `id`
   * activates it with that id and the name "<first> <last>"; the template
   * always holds the space, so the old name is never kept.
   */
  function Authenticated(a: Account, r: Outcome<Json>): (b: Account)
    ensures b.status == Active <==> HasTruthy(r, "id")
    ensures b.status != Active ==> b == Expire(a)
    ensures b.status == Active ==>
      b == a.(status := Active, accountId := TextOf(Field(Body(r), "id").value),
               accountName := Interp(Field(Body(r), "localizedFirstName")) + " " + Interp(Field(Body(r), "localizedLastName")))
  {
    if !HasTruthy(r, "id") then Expire(a)
    else
      var name := Interp(Field(Body(r), "localizedFirstName")) + " " + Interp(Field(Body(r), "localizedLastName"));
      a.(status := Active, accountId := TextOf(Field(Body(r), "id").value),
         accountName := TextOf(Or(Some(JStr(name)), JStr(a.accountName))))
  }

  method Authenticate(net: Network, account: Account) returns (a: Account)
    modifies net
    ensures net.log == old(net.log) + [AuthenticateRequest(account)]
    ensures a == Authenticated(account, Settle(net.Reply(old(|net.log|))))
  {
    var response := MakeRequest(net, BaseUrl + "/me", GET, None, Bearer(account.accessToken));
    a := Authenticated(account, response);
  }

  // ---------------------------------------------------------------------------
  // Token refresh

  function RefreshData(refreshToken: string, env: Credentials): Json {
    JObj(map["grant_type" := JStr("refresh_token"), "refresh_token" := JStr(refreshToken),
             "client_id" := JStr(EnvString(env.clientId)), "client_secret" := JStr(EnvString(env.clientSecret))])
  }

  function RefreshRequest(refreshToken: string, env: Credentials): Request {
    RequestOptions(TokenUrl, POST, Some(RefreshData(refreshToken, env)),
                   map["Content-Type" := "application/x-www-form-urlencoded"])
  }

  /**
   * Without a refresh token no request is made and the account expires;
   * otherwise the token endpoint's reply settles it, with a 60-day default
   * expiry and a rotated refresh token when one is returned.
   */
  method RefreshToken(net: Network, account: Account, env: Credentials, now: int) returns (a: Account)
    modifies net
    ensures !Present(account.refreshToken) ==> net.log == old(net.log) && a == Expire(account)
    ensures Present(account.refreshToken) ==>
      net.log == old(net.log) + [RefreshRequest(account.refreshToken.value, env)] &&
      a == Refreshed(account, Settle(net.Reply(old(|net.log|))), now, DefaultExpiresIn, true)
  {
    if !Present(account.refreshToken) {
      return Expire(account);
    }
    var response := MakeRequest(net, TokenUrl, POST, Some(RefreshData(account.refreshToken.value, env)),
                                map["Content-Type" := "application/x-www-form-urlencoded"]);
    a := Refreshed(account, response, now, DefaultExpiresIn, true);
  }

  // ---------------------------------------------------------------------------
  // Media upload

  /** The register-upload payload; it does not depend on the media URL. */
  function RegisterData(a: Account): Json {
    JObj(map["registerUploadRequest" := JObj(map[
      "recipes" := JArr([JStr("urn:li:digitalmediaRecipe:feedshare-image")]),
      "owner" := JStr(Person(a)),
      "serviceRelationships" := JArr([JObj(map["relationshipType" := JStr("OWNER"),
                                               "identifier" := JStr("urn:li:userGeneratedContent")])])])])
  }

  function RegisterRequest(a: Account): Request {
    RequestOptions(BaseUrl + "/assets?action=registerUpload", POST, Some(RegisterData(a)), JsonRestliHeaders(a.accessToken))
  }

  /** `n` register requests: one per media URL, all alike. */
  function RegisterRequests(a: Account, n: nat): seq<Request> {
    seq(n, i requires 0 <= i < n => RegisterRequest(a))
  }

  /** The media entry of a registered asset; an undefined asset leaves `media` out. */
  function MediaAsset(asset: JsValue): (m: Json)
    ensures m.JObj? && "status" in m.fields && "description" in m.fields
    ensures m.fields["status"] == JStr("READY")
    ensures m.fields["description"] == JObj(map["text" := JStr("Media upload")])
    ensures "media" in m.fields <==> asset.Some?
    ensures asset.Some? ==> m.fields["media"] == asset.value
  {
    JObj(With(map["status" := JStr("READY"), "description" := JObj(map["text" := JStr("Media upload")])], "media", asset))
  }

  /**
   * How one register reply ends its iteration: a reply without a truthy
   * `value.uploadMechanism` is skipped; one whose mechanism lacks the HTTP
   * upload request throws on reading its `uploadUrl`, as does a failed
   * request; otherwise the asset is kept.
   */
  function RegisterStepOf(r: Outcome<Json>): (s: UploadStep)
    ensures r.Throws? ==> s.Aborted?
    ensures s.Kept? ==> s.item == MediaAsset(Field(Field(Body(r), "value"), "asset"))
  {
    if r.Throws? then Aborted
    else if !HasTruthy(r, "value") then Skipped
    else
      var value := Field(Body(r), "value");
      var mechanism := Field(value, "uploadMechanism");
      if !Truthy(mechanism) then Skipped
      else if Member(Field(mechanism, UploadRequestKey), "uploadUrl").Throws? then Aborted
      else Kept(MediaAsset(Field(value, "asset")))
  }

  function RegisterStepAt(net: Network, j: nat): UploadStep {
    RegisterStepOf(Settle(net.Reply(j)))
  }

  /** How the next `n` register requests end when `k` requests have been sent. */
  function RegisterSteps(net: Network, k: nat, n: nat): seq<UploadStep> {
    seq(n, i requires 0 <= i < n => RegisterStepAt(net, k + i))
  }

  /**
   * `uploadMedia`: one register request per URL, in order; the assets of the
   * replies that carry an upload mechanism, in order; nothing at all once an
   * iteration throws (and no further request is sent).
   */
  method UploadMedia(net: Network, account: Account, mediaUrls: seq<string>) returns (assets: seq<Json>)
    modifies net
    ensures var steps := RegisterSteps(net, old(|net.log|), |mediaUrls|);
      net.log == old(net.log) + RegisterRequests(account, Issued(steps)) &&
      assets == Collected(steps)
  {
    ghost var steps := RegisterSteps(net, |net.log|, |mediaUrls|);
    ghost var start := net.log;
    assets := [];
    var i := 0;
    while i < |mediaUrls|
      invariant i <= |mediaUrls|
      invariant |net.log| == |start| + i
      invariant net.log == start + RegisterRequests(account, i)
      invariant NoAbortBefore(steps, i) && assets == KeptBefore(steps, i)
    {
      RegisterRequestsSnoc(account, i);
      var step := RegisterOne(net, account);
      assert step == steps[i];
      if step.Aborted? {
        UploadAbort(steps, i);
        return [];
      }
      if step.Kept? {
        assets := assets + [step.item];
      }
      i := i + 1;
    }
    UploadFinish(steps, i);
  }

  lemma RegisterRequestsSnoc(a: Account, i: nat)
    ensures RegisterRequests(a, i + 1) == RegisterRequests(a, i) + [RegisterRequest(a)]
  {
  }

  /** One iteration of the upload loop: the register request, classified. */
  method RegisterOne(net: Network, account: Account) returns (step: UploadStep)
    modifies net
    ensures net.log == old(net.log) + [RegisterRequest(account)]
    ensures step == RegisterStepAt(net, old(|net.log|))
  {
    var response := MakeRequest(net, BaseUrl + "/assets?action=registerUpload", POST, Some(RegisterData(account)),
                                JsonRestliHeaders(account.accessToken));
    step := RegisterStepOf(response);
  }

  // ---------------------------------------------------------------------------
  // Publishing

  /** The share content: the commentary, and media (category IMAGE) only when assets were registered. */
  function ShareContent(text: Option<string>, assets: seq<Json>): (f: Fields)
    ensures f.Keys == {"shareCommentary", "shareMediaCategory"} + if |assets| > 0 then {"media"} else {}
    ensures f["shareCommentary"] == JObj(With(map[], "text", OptStr(text)))
    ensures f["shareMediaCategory"] == JStr(if |assets| > 0 then "IMAGE" else "NONE")
    ensures |assets| > 0 ==> f["media"] == JArr(assets)
  {
    var share := map["shareCommentary" := JObj(With(map[], "text", OptStr(text))), "shareMediaCategory" := JStr("NONE")];
    if |assets| > 0 then share["shareMediaCategory" := JStr("IMAGE")]["media" := JArr(assets)] else share
  }

  function PostData(a: Account, text: Option<string>, assets: seq<Json>): Json {
    JObj(map["author" := JStr(Person(a)), "lifecycleState" := JStr("PUBLISHED"),
             "specificContent" := JObj(map[ShareContentKey := JObj(ShareContent(text, assets))]),
             "visibility" := JObj(map["com.linkedin.ugc.MemberNetworkVisibility" := JStr("PUBLIC")])])
  }

  function PostRequest(a: Account, text: Option<string>, assets: seq<Json>): Request {
    RequestOptions(BaseUrl + "/ugcPosts", POST, Some(PostData(a, text, assets)), JsonRestliHeaders(a.accessToken))
  }

  /**
   * `publishContent`: with media, the register requests come first; the post
   * carries the assets collected. The result is the post reply itself.
   */
  method PublishContent(net: Network, account: Account, content: Content) returns (r: Outcome<Json>)
    modifies net
    ensures !HasMedia(content) ==>
      net.log == old(net.log) + [PostRequest(account, content.text, [])] &&
      r == Settle(net.Reply(old(|net.log|)))
    ensures HasMedia(content) ==>
      var steps := RegisterSteps(net, old(|net.log|), |content.mediaUrls.value|);
      var n := Issued(steps);
      net.log == old(net.log) + RegisterRequests(account, n) + [PostRequest(account, content.text, Collected(steps))] &&
      r == Settle(net.Reply(old(|net.log|) + n))
  {
    var assets: seq<Json> := [];
    if content.mediaUrls.Some? && |content.mediaUrls.value| > 0 {
      assets := UploadMedia(net, account, content.mediaUrls.value);
    }
    r := MakeRequest(net, BaseUrl + "/ugcPosts", POST, Some(PostData(account, content.text, assets)),
                     JsonRestliHeaders(account.accessToken));
  }

  // ---------------------------------------------------------------------------
  // Single-request operations

  function DeleteRequest(a: Account, contentId: string): Request {
    RequestOptions(BaseUrl + "/ugcPosts/" + contentId, DELETE, None, RestliHeaders(a.accessToken))
  }

  /** `deleteContent`: true exactly when the request succeeds; it never throws. */
  method DeleteContent(net: Network, account: Account, contentId: string) returns (ok: bool)
    modifies net
    ensures net.log == old(net.log) + [DeleteRequest(account, contentId)]
    ensures ok <==> net.Reply(old(|net.log|)).Ok?
  {
    var response := MakeRequest(net, BaseUrl + "/ugcPosts/" + contentId, DELETE, None, RestliHeaders(account.accessToken));
    ok := Succeeded(response);
  }

  /** The endpoint getAnalytics queries: one post's social actions, or the member's share statistics. */
  function AnalyticsEndpoint(a: Account, contentId: Option<string>): (e: string)
    ensures Present(contentId) ==> e == BaseUrl + "/socialActions/" + contentId.value
    ensures !Present(contentId) ==>
      e == BaseUrl + "/organizationalEntityShareStatistics?q=organizationalEntity&organizationalEntity=" + Person(a)
  {
    if Present(contentId) then BaseUrl + "/socialActions/" + contentId.value
    else BaseUrl + "/organizationalEntityShareStatistics?q=organizationalEntity&organizationalEntity=" + Person(a)
  }

  method GetAnalytics(net: Network, account: Account, contentId: Option<string>) returns (r: Outcome<Json>)
    modifies net
    ensures net.log == old(net.log) + [RequestOptions(AnalyticsEndpoint(account, contentId), GET, None, RestliHeaders(account.accessToken))]
    ensures r == Settle(net.Reply(old(|net.log|)))
  {
    var endpoint := AnalyticsEndpoint(account, contentId);
    r := MakeRequest(net, endpoint, GET, None, RestliHeaders(account.accessToken));
  }

  function CommentsEndpoint(id: string): string {
    BaseUrl + "/socialActions/" + id + "/comments"
  }

  /** `getComments`: the reply's `elements`, or [] when absent or on failure. */
  method GetComments(net: Network, account: Account, contentId: string) returns (comments: Json)
    modifies net
    ensures net.log == old(net.log) + [RequestOptions(CommentsEndpoint(contentId), GET, None, RestliHeaders(account.accessToken))]
    ensures comments == CommentsOf(Settle(net.Reply(old(|net.log|))), "elements")
  {
    var response := MakeRequest(net, CommentsEndpoint(contentId), GET, None, RestliHeaders(account.accessToken));
    comments := CommentsOf(response, "elements");
  }

  /** The reply payload: the member as actor, the text as message. */
  function ReplyData(a: Account, reply: string): Json {
    JObj(map["actor" := JStr(Person(a)), "message" := JObj(map["text" := JStr(reply)])])
  }

  method ReplyToComment(net: Network, account: Account, commentId: string, reply: string) returns (r: Outcome<Json>)
    modifies net
    ensures net.log == old(net.log) + [RequestOptions(CommentsEndpoint(commentId), POST, Some(ReplyData(account, reply)), JsonRestliHeaders(account.accessToken))]
    ensures r == Settle(net.Reply(old(|net.log|)))
  {
    r := MakeRequest(net, CommentsEndpoint(commentId), POST, Some(ReplyData(account, reply)), JsonRestliHeaders(account.accessToken));
  }
}
