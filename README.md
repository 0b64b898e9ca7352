# Social-media platform adapters, modelled in Dafny

This project models the platform adapter layer of a social-media management
application and the request executor under it. It covers:

- the content adapters for Twitter, LinkedIn, Facebook and Instagram;
- the ad adapters for Facebook, Twitter and LinkedIn;
- the linked-account record and its persistence rules.

Each adapter operation turns an account and a domain record into one or more
HTTP requests. It sends them in order through `ApiRequestManager.makeRequest`,
takes identifiers from earlier replies where a later step needs them, and
maps the final reply or failure to a result or a new account status.

The network is a scripted `Network` object:

- its `script` holds the replies;
- the i-th request ever sent gets `script[i]`, and a request past the end gets
  no reply at all (`Dropped`, a network failure);
- every request is appended to its `log`.

Each adapter method states the exact requests it appends to the log: their
order, endpoints, methods, headers and bodies. It also states its result in
terms of the scripted replies. Instagram's adapter uses no mutation, so it is
modelled as functions of the reply sequence; `InstagramContent.ReplyAtNetwork`
ties that sequence to a `Network` script.

Files, one module each:

- `js.dfy` (`Js`): the JavaScript semantics the adapters rely on:
  - JSON values, and `undefined` as an absent value;
  - truthiness, `||` and property access (which throws on null);
  - template-literal interpolation;
  - `parseInt` and `Number()`, for the finite numbers that decimal and radix literals denote.
- `api_request_manager.dfy` (`ApiRequestManager`): the request record, the
  scripted network, `makeRequest`, the rate-limit delay and the retry loop.
- `social_media_accounts.dfy` (`SocialMediaAccounts`): the account record, the
  SET clause of an update and what it does to a row, and the account store.
- `adapter_support.dfy` (`AdapterSupport`): behaviour that several adapters
  share:
  - the probe for an active ad account;
  - settling a token refresh;
  - optional payload fields;
  - the `getComments` fallback;
  - the synthetic scheduling acknowledgement;
  - the skip/keep/abort classification of media-upload loops.
- One module per adapter: `twitter_content.dfy`, `linkedin_content.dfy`,
  `facebook_content.dfy`, `instagram_content.dfy`, `facebook_ads.dfy`,
  `twitter_ads.dfy` and `linkedin_ads.dfy`.

Places where the code does something surprising; the model follows the code:

- **A revoked account can become expired.** `revoked` is a status of its own,
  yet `refreshTokenIfNeeded` looks only at the expiry, so a revoked account
  whose expiry has passed is overwritten with expired. See
  `SocialMediaAccounts.AccountStore.RefreshTokenIfNeeded`.
- **The 429 wait cannot trigger for request errors.** `handleErrors` waits
  only when the error carries a `response` object with status 429. The errors
  `makeRequest` throws carry only a message, so for them the wait is never
  taken, even when the platform answered 429. `ApiRequestManager.HandleErrors`
  models the check as written, over an error that may or may not carry a
  response.
- **`handleErrors` can throw.** A rejection with null or undefined, or a 429
  response without `headers`, makes `handleErrors` throw a TypeError inside the
  retry loop's catch, which ends `retryFailedRequests` with that TypeError
  instead of the original error. `ApiRequestManager.RetryFailedRequests`
  models that.
- **Every failure is retried alike.** `retryFailedRequests` catches every
  rejection in the same way, so an authentication or validation failure is
  retried just as a rate-limit failure is.
- **Deletes send no token.** Facebook's and Instagram's `deleteContent` pass the
  access token as request data. `makeRequest` attaches data only to POST and
  PUT, so the DELETE goes out without it. The model shows the body as absent.
- **Twitter ad actions address a line item.** `pauseAd`, `resumeAd` and
  `deleteAd` use the ad id they are given as a line-item id, as the comment at
  `src/lib/twitter-ad-adapter.ts:381` says. Nothing maps a promoted tweet to its
  line item. The model keeps this; see `TwitterAds.PauseAd`.
- **LinkedIn's name fallback is dead code.** `authenticate` builds the name as
  `"<first> <last>"`, and that text always holds the space. So the `||`
  fallback to the old name is never taken.

## Model

| member | source | states |
|---|---|---|
| ApiRequestManager.Network.Fetch | src/lib/social-media-adapter.ts:36 | `fetch` appends exactly one request to the log and is answered by the scripted reply for its position |
| ApiRequestManager.RequestOptionsShape | src/lib/social-media-adapter.ts:24-34 | the headers are the caller's over a JSON Content-Type, and a caller key wins; a body is attached iff the data is truthy and the method is POST or PUT |
| ApiRequestManager.MakeRequest | src/lib/social-media-adapter.ts:17-47 | appends exactly the shaped request to the log and settles as the scripted reply for it |
| ApiRequestManager.HandleErrors | src/lib/social-media-adapter.ts:49-62 | throws a TypeError iff the rejection is null/undefined or a 429 response has no headers; otherwise a wait happens iff the error's response has status 429, and it is the parsed retry-after value × 1000, or 5000 ms when the header is missing or the result is zero or NaN |
| ApiRequestManager.RetryAfterSeconds | src/lib/social-media-adapter.ts:58-60 | a numeric retry-after header of n ≠ 0 seconds waits n × 1000 ms |
| ApiRequestManager.RetryFailedRequests | src/lib/social-media-adapter.ts:64-85 | an omitted maxRetries is 3; maxRetries ≤ 0: never invoked, and the max-retries error; otherwise at most maxRetries invocations, each after a failure; `handleErrors` sees the failures in order, on every failure but one at the last invocation; k handled failures and then a success (k < maxRetries) take exactly k + 1 invocations and return that success; failures all the way take exactly maxRetries invocations, `handleErrors` runs maxRetries − 1 times, and the last failure is rethrown as is; a `handleErrors` that throws ends the loop with its TypeError |
| Js.ParseInt | src/lib/social-media-adapter.ts:59 | `parseInt(s, 10)` is NaN exactly when no digits follow the optional whitespace and sign |
| Js.ParseIntDecimalString | src/lib/social-media-adapter.ts:59 | `parseInt` reads back the decimal text of any integer, whatever non-digit text follows it |
| Js.ParseIntNoDigits | src/lib/social-media-adapter.ts:59 | text whose first character after whitespace and sign is not a digit parses to NaN |
| Js.ScaledWhole | src/lib/facebook-ad-adapter.ts:98-99 | `v * factor` for a `v` whose `Number` is the whole number n sends n × factor |
| Js.NumberOfDecimalString | src/lib/facebook-ad-adapter.ts:98-99 | `Number` reads back the decimal text of every integer, signed or not |
| Js.ExponentNumber | src/lib/facebook-ad-adapter.ts:98-99 | `Number` of the digits of d, an `e` and the digits of k is d × 10^k ("1e3" is 1000) |
| Js.PointZeroNumber | src/lib/facebook-ad-adapter.ts:98-99 | `Number` of the digits of d followed by ".0" is the whole number d ("12.0" is 12) |
| Js.FractionNumber | src/lib/facebook-ad-adapter.ts:98-99 | `Number` of the digits of d, a point and digits f of nonzero value is d and f read together, shifted \|f\| places, and is not whole ("1.5" is 1.5) |
| Js.RadixNumber | src/lib/facebook-ad-adapter.ts:98-99 | `Number` of `0x`, `0o` or `0b` (either case) and the digits of n in base 16, 8 or 2 is n ("0x10" is 16) |
| Js.SignedRadixNumber | src/lib/facebook-ad-adapter.ts:98-99 | a minus or plus sign before `0x`, `0o` or `0b` and any number's digits in that base gives NaN: a radix prefix takes no sign ("-0x10" is NaN) |
| Js.ArrayNumber | src/lib/facebook-ad-adapter.ts:98-99 | `Number([])` is 0; a one-element array has the `Number` of its element for every element but a boolean, and a boolean element gives NaN (`[7]` is 7, `[true]` is NaN) |
| Js.InfinityNumber | src/lib/facebook-ad-adapter.ts:98-99 | "Infinity" with no sign, a minus or a plus, and any white space around it, is not a finite number |
| SocialMediaAccounts.StatusNameRoundTrip | src/lib/social-media-account.ts:13 | the three status names are distinct and read back as their status |
| SocialMediaAccounts.ClauseColumn | src/lib/social-media-account.ts:111-137 | a clause text names at most one column, and that column's clause is the text |
| SocialMediaAccounts.ClauseTextRoundTrip | src/lib/social-media-account.ts:111-137 | every column's `column = ?` text reads back as that column |
| SocialMediaAccounts.AssignmentsShape | src/lib/social-media-account.ts:111-137 | the SET list holds a field's clause iff the field is supplied, in the fixed order name, access token, refresh token, expiry, status, and always ends with `updated_at` |
| SocialMediaAccounts.SomesOrdered | src/lib/social-media-account.ts:111-136 | the clauses pushed keep increasing column positions |
| SocialMediaAccounts.SomesSets | src/lib/social-media-account.ts:111-136 | a column is set iff one of the pushed candidates names it |
| SocialMediaAccounts.PushIfSupplied | src/lib/social-media-account.ts:111-114 | one `if (field) push` step appends the clause and its value together, or neither |
| SocialMediaAccounts.UpdateStatement | src/lib/social-media-account.ts:108-140 | `values[i]` is the value of `updates[i]`, plus exactly one trailing value, the id |
| SocialMediaAccounts.Updated | src/lib/social-media-account.ts:102-152 | the intended update: each supplied field replaced, `updated_at` set, identity and creation time kept |
| SocialMediaAccounts.UpdateStatementMeaning | src/lib/social-media-account.ts:142-145 | executing the built statement against the row gives exactly the intended update |
| SocialMediaAccounts.ExecuteUpdateAll | src/lib/social-media-account.ts:142-145 | executing clause texts with their bound values is applying the assignments they came from |
| SocialMediaAccounts.AccountStore.Create | src/lib/social-media-account.ts:75-100 | rejects a second account for the same user and platform; otherwise inserts the new active account under the fresh id; keeps one account per user and platform |
| SocialMediaAccounts.AccountStore.Update | src/lib/social-media-account.ts:102-152 | null for an unknown id; otherwise the row becomes the intended update and is returned; every other row is untouched |
| SocialMediaAccounts.AccountStore.RefreshTokenIfNeeded | src/lib/social-media-account.ts:163-177 | null for an unknown id; an elapsed expiry marks the account expired; otherwise it is returned unchanged; never assigns revoked |
| AdapterSupport.ListAuthenticated | src/lib/facebook-ad-adapter.ts:20-37 | the ad adapters' check: active iff the reply's list is non-empty; expired otherwise, failures included; nothing else changes |
| AdapterSupport.Refreshed | src/lib/facebook-adapter.ts:63-86 | a reply with a truthy access token activates the account with the new token and an expiry; a rotating platform replaces a returned refresh token; anything else expires the account; identity never changes |
| AdapterSupport.GrantExpiry | src/lib/facebook-adapter.ts:64-85 | the expiry is now + `expires_in`, or now + the platform default when `expires_in` is absent, zero or null; the account is active exactly when that time is within the range of `Date`, and expires otherwise, since `toISOString` then throws |
| AdapterSupport.ExpiryAfter | src/lib/facebook-adapter.ts:64-71 | a valid expiry is always within ±8.64e15 ms; a numeric `expires_in` moves the expiry that many seconds ahead, and gives an invalid date exactly when that leaves the range |
| AdapterSupport.StringExpiresIn | src/lib/facebook-adapter.ts:64-71 | an `expires_in` given as the digits of d is appended to the seconds of the minute s, so the seconds become s × 10^(number of digits) + d, and the date is invalid when that leaves the range of `Date` |
| AdapterSupport.CopyTruthy | src/lib/facebook-ad-adapter.ts:242-252 | the key is set to the input field exactly when that field is truthy, and otherwise keeps what it had; every other key of the payload is left as it was |
| AdapterSupport.ScaleTruthy | src/lib/facebook-ad-adapter.ts:98-104 | the key is set to the input field times the factor exactly when that field is truthy, and otherwise keeps what it had; every other key of the payload is left as it was |
| AdapterSupport.DataOf | src/lib/twitter-adapter.ts:114 | `response.data`: the error if the request failed, a TypeError on a null reply, else the field |
| AdapterSupport.CommentsOf | src/lib/facebook-adapter.ts:260-264 | the comment list is the reply's list when present and truthy, and [] exactly otherwise: failures, a null body, and an absent or falsy list |
| AdapterSupport.ScheduledAck | src/lib/twitter-adapter.ts:158-163 | the synthetic schedule: id `scheduled_<now>`, the requested time, status `scheduled` and the fixed message, and no other keys |
| AdapterSupport.Issued | src/lib/twitter-adapter.ts:127-149 | an upload loop issues at most one request per URL |
| AdapterSupport.IssuedAll | src/lib/twitter-adapter.ts:127-143 | without a throw, every URL gets its request |
| AdapterSupport.UploadAbort | src/lib/twitter-adapter.ts:146-149 | the first throw stops the loop after its own request, and the loop yields [] |
| AdapterSupport.UploadFinish | src/lib/twitter-adapter.ts:140-145 | without a throw, the loop yields the kept items in order |
| AdapterSupport.KeptBeforeAll | src/lib/twitter-adapter.ts:140-142 | when every reply carries an id, all ids are kept in URL order |
| AdapterSupport.KeptBeforeNone | src/lib/linkedin-adapter.ts:145-189 | nothing is kept iff no iteration yields an item |
| AdapterSupport.KeptBeforePrefix | src/lib/linkedin-adapter.ts:145-189 | collecting is append-only, so the order of kept items is preserved |
| AdapterSupport.CollectedBound | src/lib/linkedin-adapter.ts:141-194 | at most one item is collected per URL |
| TwitterContent.Authenticated | src/lib/twitter-adapter.ts:12-43 | active with the user's id and username (or the old name) iff the reply has a truthy `data.id`; expired otherwise |
| TwitterContent.Authenticate | src/lib/twitter-adapter.ts:12-43 | one GET `/users/me` with the bearer token, settled as Authenticated |
| TwitterContent.RefreshToken | src/lib/twitter-adapter.ts:45-86 | no refresh token: no request and expired; otherwise one token request, a 7200 s default expiry and a rotated refresh token when the reply has one |
| TwitterContent.UploadMedia | src/lib/twitter-adapter.ts:121-150 | one upload per URL in order until the first throw; the collected `media_id_string` values in order, or [] after a throw |
| TwitterContent.UploadOne | src/lib/twitter-adapter.ts:128-142 | one upload request, classified as kept (with its id), skipped or aborted |
| TwitterContent.TweetData | src/lib/twitter-adapter.ts:91-101 | the tweet carries the text, and `media.media_ids` iff at least one id was collected |
| TwitterContent.PublishContent | src/lib/twitter-adapter.ts:88-119 | text only: exactly one POST `/tweets`; with media: the uploads first, then the tweet with the collected ids; the result is the reply's `data` |
| TwitterContent.DeleteContent | src/lib/twitter-adapter.ts:170-188 | one DELETE `/tweets/<id>`; true iff it succeeds; never throws |
| TwitterContent.GetAnalytics | src/lib/twitter-adapter.ts:190-216 | one GET to that endpoint; result: the reply's `data` |
| TwitterContent.GetComments | src/lib/twitter-adapter.ts:218-236 | one GET of the `conversation_id:<id>` search; `data`, or [] when absent or on failure |
| TwitterContent.ReplyToComment | src/lib/twitter-adapter.ts:238-263 | one POST `/tweets` carrying the text and `reply.in_reply_to_tweet_id` = the comment id; result: the reply's `data` |
| LinkedInContent.Authenticated | src/lib/linkedin-adapter.ts:12-43 | active with the reply's id and the name `<first> <last>` iff the reply has a truthy id; expired otherwise |
| LinkedInContent.Authenticate | src/lib/linkedin-adapter.ts:12-43 | one GET `/me` with the bearer token, settled as Authenticated |
| LinkedInContent.RefreshToken | src/lib/linkedin-adapter.ts:45-90 | no refresh token: no request and expired; otherwise one form-encoded token request, a 5184000 s default expiry and a rotated refresh token when returned |
| LinkedInContent.MediaAsset | src/lib/linkedin-adapter.ts:180-186 | a collected asset entry is READY with the fixed description, and names the registered asset when it is defined |
| LinkedInContent.RegisterStepOf | src/lib/linkedin-adapter.ts:169-186 | a failed register aborts the loop; a kept register yields the media entry of its asset |
| LinkedInContent.UploadMedia | src/lib/linkedin-adapter.ts:141-194 | one register request per URL in order until the first throw; the assets of replies with an upload mechanism, in order, or [] after a throw |
| LinkedInContent.RegisterOne | src/lib/linkedin-adapter.ts:147-167 | one register request, classified by its reply |
| LinkedInContent.ShareContent | src/lib/linkedin-adapter.ts:97-121 | category IMAGE with `media` iff at least one asset was collected; NONE without `media` otherwise |
| LinkedInContent.PublishContent | src/lib/linkedin-adapter.ts:92-139 | text only: exactly one ugcPosts POST; with media: the register requests first, then the post with the collected assets; result: the post reply |
| LinkedInContent.DeleteContent | src/lib/linkedin-adapter.ts:214-233 | one DELETE `/ugcPosts/<id>`; true iff it succeeds; never throws |
| LinkedInContent.GetAnalytics | src/lib/linkedin-adapter.ts:235-262 | one GET to that endpoint; result: the reply |
| LinkedInContent.GetComments | src/lib/linkedin-adapter.ts:264-283 | one GET of the post's comments; `elements`, or [] when absent or on failure |
| LinkedInContent.ReplyToComment | src/lib/linkedin-adapter.ts:285-311 | one POST to the comment's comments with the member as actor and the text as message |
| FacebookContent.Authenticated | src/lib/facebook-adapter.ts:21-27 | active with the reply's id and name (or the old name) iff the reply has a truthy id; tokens and identity kept; expired otherwise |
| FacebookContent.Authenticate | src/lib/facebook-adapter.ts:12-41 | one GET `/me?access_token=…`, settled as Authenticated |
| FacebookContent.RefreshToken | src/lib/facebook-adapter.ts:43-87 | no refresh token: no request and expired; otherwise one token exchange, a 5184000 s default expiry, and the refresh token never replaced |
| FacebookContent.RouteOf | src/lib/facebook-adapter.ts:98-102 | a feed post without media; otherwise by the first URL: a video iff it contains `.mp4` or `.mov`, else a photo |
| FacebookContent.PostData | src/lib/facebook-adapter.ts:92-128 | the token always; the text as `message`, or as `description` for a video; the photo's `url` or the video's `file_url`; nothing else |
| FacebookContent.SendPost | src/lib/facebook-adapter.ts:98-138 | exactly one POST to the route's edge with that payload |
| FacebookContent.PublishContent | src/lib/facebook-adapter.ts:89-143 | exactly one POST, routed by the first media URL; result: the reply |
| FacebookContent.Timestamp | src/lib/facebook-adapter.ts:147 | the scheduled time in whole seconds, rounded down; NaN for an invalid date |
| FacebookContent.ScheduleContent | src/lib/facebook-adapter.ts:145-205 | exactly one POST by the same routing, its payload extended with `published: false` and the timestamp |
| FacebookContent.ScheduledLikePublished | src/lib/facebook-adapter.ts:145-198 | a scheduled post goes to the same edge as the published one, with the same payload plus the two schedule fields |
| FacebookContent.OnlyFirstMediaUrl | src/lib/facebook-adapter.ts:98-128 | only the first media URL affects the request |
| FacebookContent.DeleteContent | src/lib/facebook-adapter.ts:207-225 | one DELETE, which carries no body; true iff it succeeds; never throws |
| FacebookContent.GetAnalytics | src/lib/facebook-adapter.ts:227-249 | one GET to that endpoint; result: the reply's `data` |
| FacebookContent.GetComments | src/lib/facebook-adapter.ts:251-265 | one GET of the object's comments; `data`, or [] when absent or on failure |
| FacebookContent.ReplyToComment | src/lib/facebook-adapter.ts:267-286 | one POST to the comment's comments with the message and token |
| InstagramContent.ReplyAtNetwork | src/lib/instagram-adapter.ts:15-18 | the reply sequence answers requests as a scripted network does |
| InstagramContent.Authenticate | src/lib/instagram-adapter.ts:12-39 | one GET of the account's id and username; active with the username (or the old name) iff the reply has a truthy id, and the account id kept; expired otherwise |
| InstagramContent.RefreshToken | src/lib/instagram-adapter.ts:41-84 | no refresh token: nothing sent and expired; otherwise one exchange, a 5184000 s default expiry and the refresh token kept |
| InstagramContent.PublishContent | src/lib/instagram-adapter.ts:86-126 | no media: throws before any request; else the container POST with the first URL and the caption; a container without an id throws before publishing; else `media_publish` with the container id |
| InstagramContent.PublishUsesFirstUrl | src/lib/instagram-adapter.ts:93-104 | only the first media URL affects what is sent |
| InstagramContent.ScheduleContent | src/lib/instagram-adapter.ts:128-145 | sends no request; the result is `ScheduledAck(nowMs, scheduledTime)` |
| InstagramContent.DeleteContent | src/lib/instagram-adapter.ts:146-164 | exactly one DELETE of `/<contentId>` with the JSON headers; the token passed as data is dropped, so no body is sent; true iff it succeeds |
| InstagramContent.GetAnalytics | src/lib/instagram-adapter.ts:166-188 | one GET to that endpoint; result: the reply's `data` |
| InstagramContent.GetComments | src/lib/instagram-adapter.ts:190-204 | exactly one GET of `/<contentId>/comments?access_token=…`; the result is the reply's `data` when it is truthy, and [] on a failure or when `data` is absent or falsy |
| InstagramContent.ReplyToComment | src/lib/instagram-adapter.ts:206-225 | exactly one POST to `/<commentId>/replies` with the JSON headers and the message and token as body; the result is that reply settled |
| FacebookAds.Authenticate | src/lib/facebook-ad-adapter.ts:12-38 | one GET of the ad accounts; active iff `data` is a non-empty list, expired otherwise; never throws |
| FacebookAds.RefreshToken | src/lib/facebook-ad-adapter.ts:40-83 | the Facebook token exchange: no request without a refresh token, a 5184000 s default expiry, the refresh token unchanged |
| FacebookAds.CampaignData | src/lib/facebook-ad-adapter.ts:90-104 | defaults objective REACH, status PAUSED and `special_ad_categories` []; the name when present; each budget × 100 only when supplied |
| FacebookAds.CreateCampaign | src/lib/facebook-ad-adapter.ts:85-117 | one POST to `act_<id>/campaigns` with that payload; result: the reply |
| FacebookAds.CampaignUpdate | src/lib/facebook-ad-adapter.ts:123-141 | the token plus exactly the supplied name, status and budgets (× 100) |
| FacebookAds.EmptyCampaignUpdate | src/lib/facebook-ad-adapter.ts:123-141 | an update that supplies nothing sends only the token |
| FacebookAds.UpdateCampaign | src/lib/facebook-ad-adapter.ts:119-154 | one POST to the campaign with that payload |
| FacebookAds.StatusRequestShape | src/lib/facebook-ad-adapter.ts:156-176 | a status change is a POST of exactly the status and the token |
| FacebookAds.PauseCampaign | src/lib/facebook-ad-adapter.ts:156-176 | one status change to PAUSED; result: the reply |
| FacebookAds.ResumeCampaign | src/lib/facebook-ad-adapter.ts:178-198 | one status change to ACTIVE |
| FacebookAds.DeleteCampaign | src/lib/facebook-ad-adapter.ts:200-220 | one status change to DELETED; true iff it succeeds; never throws |
| FacebookAds.AdSetIdentity | src/lib/facebook-ad-adapter.ts:228-236 | the ad set is named `adset_name` or `<name> Ad Set`, belongs to the campaign and carries the token |
| FacebookAds.AdSetDefaults | src/lib/facebook-ad-adapter.ts:228-236 | defaults: goal REACH, billing IMPRESSIONS, bid 2, status PAUSED |
| FacebookAds.AdSetOptionalFields | src/lib/facebook-ad-adapter.ts:238-252 | daily budget × 100, targeting and times are sent only when supplied |
| FacebookAds.CreativeShape | src/lib/facebook-ad-adapter.ts:266-278 | the creative is named `creative_name` or `<name> Creative`, carries the page and link data and the token, and nothing else |
| FacebookAds.LinkDataShape | src/lib/facebook-ad-adapter.ts:270-282 | the link data carries message, link, caption and description when present, and the image only when supplied |
| FacebookAds.AdDataShape | src/lib/facebook-ad-adapter.ts:296-302 | the ad binds the given ad set and creative ids, status defaults to PAUSED, and carries the name and token |
| FacebookAds.CreateAd | src/lib/facebook-ad-adapter.ts:222-319 | ad set, creative, then ad, in that order; an ad set without an id throws before the creative; a creative without an id throws before the ad; the ad binds both created ids |
| FacebookAds.AdUpdate | src/lib/facebook-ad-adapter.ts:325-335 | the token plus exactly the supplied name and status |
| FacebookAds.UpdateAd | src/lib/facebook-ad-adapter.ts:321-348 | one POST to the ad with that payload |
| FacebookAds.PauseAd | src/lib/facebook-ad-adapter.ts:350-370 | one status change of the ad to PAUSED |
| FacebookAds.ResumeAd | src/lib/facebook-ad-adapter.ts:372-392 | one status change to ACTIVE |
| FacebookAds.DeleteAd | src/lib/facebook-ad-adapter.ts:394-414 | one status change to DELETED; true iff it succeeds; never throws |
| FacebookAds.GetAnalytics | src/lib/facebook-ad-adapter.ts:416-439 | one GET to that endpoint; result: the reply's `data` |
| TwitterAds.Authenticate | src/lib/twitter-ad-adapter.ts:13-43 | one GET of the ad accounts with the bearer token; active iff `data` is a non-empty list; expired otherwise |
| TwitterAds.RefreshToken | src/lib/twitter-ad-adapter.ts:45-86 | the Twitter token request: a 7200 s default expiry, and a returned refresh token replaces the old one |
| TwitterAds.CampaignBudgets | src/lib/twitter-ad-adapter.ts:96-97 | daily and total budgets are sent × 1,000,000 when supplied and left out otherwise |
| TwitterAds.CampaignFields | src/lib/twitter-ad-adapter.ts:93-101 | status defaults to PAUSED; name, funding instrument and times are sent when present; nothing else |
| TwitterAds.CreateCampaign | src/lib/twitter-ad-adapter.ts:88-118 | one POST to the account's campaigns with that payload and JSON bearer headers; result: `data` |
| TwitterAds.CampaignUpdate | src/lib/twitter-ad-adapter.ts:125-149 | exactly the supplied name, `entity_status`, budgets (in micros) and times; unlike creation, the status is read from `entity_status`, not `status` |
| TwitterAds.UpdateCampaign | src/lib/twitter-ad-adapter.ts:120-166 | one PUT to the campaign with that payload; result: `data` |
| TwitterAds.StatusRequestShape | src/lib/twitter-ad-adapter.ts:168-192 | a status change is a PUT of exactly `entity_status`, with the bearer token |
| TwitterAds.PauseCampaign | src/lib/twitter-ad-adapter.ts:168-192 | one status change of the campaign to PAUSED |
| TwitterAds.ResumeCampaign | src/lib/twitter-ad-adapter.ts:194-218 | one status change to ACTIVE |
| TwitterAds.DeleteCampaign | src/lib/twitter-ad-adapter.ts:220-244 | one status change to DELETED; true iff it succeeds; never throws |
| TwitterAds.BidMicros | src/lib/twitter-ad-adapter.ts:255 | the bid × 1,000,000 when supplied, else 10,000,000 |
| TwitterAds.LineItemIdentity | src/lib/twitter-ad-adapter.ts:252-255 | the line item belongs to the campaign, is named `line_item_name` or `<name> Line Item`, and bids BidMicros |
| TwitterAds.LineItemDefaults | src/lib/twitter-ad-adapter.ts:252-260 | product PROMOTED_TWEETS; defaults objective TWEET_ENGAGEMENTS, placements [ALL_ON_TWITTER], status PAUSED; exactly seven keys |
| TwitterAds.AdResult | src/lib/twitter-ad-adapter.ts:322-325 | `{line_item, promoted_tweet}` from the line item's and the promoted tweet's `data` |
| TwitterAds.CreateAd | src/lib/twitter-ad-adapter.ts:246-330 | line item, then the tweet unless `tweet_id` is given, then the promoted tweet with `line_item_id` and `[tweetId]`; a missing `data.id` throws before the next request |
| TwitterAds.AdUpdate | src/lib/twitter-ad-adapter.ts:345-357 | exactly the supplied name, status (as `entity_status`) and bid (in micros) |
| TwitterAds.UpdateAd | src/lib/twitter-ad-adapter.ts:332-374 | no `line_item_id`: throws before any request; otherwise one PUT to the line item with that payload |
| TwitterAds.PauseAd | src/lib/twitter-ad-adapter.ts:376-404 | one status change to PAUSED on `line_items/<adId>` |
| TwitterAds.ResumeAd | src/lib/twitter-ad-adapter.ts:406-434 | one status change to ACTIVE on `line_items/<adId>` |
| TwitterAds.DeleteAd | src/lib/twitter-ad-adapter.ts:436-464 | one status change to DELETED on `line_items/<adId>`; true iff it succeeds; never throws |
| TwitterAds.GetAnalytics | src/lib/twitter-ad-adapter.ts:466-493 | one GET to that endpoint with the bearer token only; result: `data` |
| LinkedInAds.HeaderKinds | src/lib/linkedin-ad-adapter.ts:127-131 | every request names Rest.li protocol 2.0.0 and the bearer token; only partial updates add `X-Restli-Method: PARTIAL_UPDATE` |
| LinkedInAds.Authenticate | src/lib/linkedin-ad-adapter.ts:12-42 | one GET of the active ad accounts; active iff `elements` is a non-empty list; expired otherwise |
| LinkedInAds.RefreshToken | src/lib/linkedin-ad-adapter.ts:44-89 | the LinkedIn token request: a 5184000 s default expiry and a rotated refresh token |
| LinkedInAds.CampaignDefaults | src/lib/linkedin-ad-adapter.ts:95-100 | the campaign belongs to the input's sponsored account; defaults status PAUSED, type SPONSORED_UPDATES, cost type CPC |
| LinkedInAds.CampaignMoney | src/lib/linkedin-ad-adapter.ts:101-112 | the daily budget defaults to the text "10" and the unit cost to "2", each in USD unless a currency is given; a supplied amount is sent unconverted; the locale defaults to US/en |
| LinkedInAds.CampaignOptionalFields | src/lib/linkedin-ad-adapter.ts:95-121 | the name is sent when present; start and end dates only when supplied |
| LinkedInAds.CreateCampaign | src/lib/linkedin-ad-adapter.ts:91-139 | one POST to adCampaignsV2 with that payload; result: the reply |
| LinkedInAds.CampaignUpdateNamed | src/lib/linkedin-ad-adapter.ts:147-153 | name and status are sent exactly when supplied |
| LinkedInAds.CampaignUpdateMoney | src/lib/linkedin-ad-adapter.ts:155-167 | daily budget and unit cost are sent exactly when supplied, as the amount in the given currency or USD |
| LinkedInAds.CampaignUpdateDates | src/lib/linkedin-ad-adapter.ts:169-175 | start and end dates are sent exactly when supplied |
| LinkedInAds.CampaignUpdateKeys | src/lib/linkedin-ad-adapter.ts:145-175 | nothing but those six fields is ever sent |
| LinkedInAds.EmptyCampaignUpdate | src/lib/linkedin-ad-adapter.ts:145-175 | an update that supplies nothing sends an empty object |
| LinkedInAds.UpdateCampaign | src/lib/linkedin-ad-adapter.ts:141-194 | one POST to the campaign with that payload and the partial-update headers |
| LinkedInAds.PauseCampaign | src/lib/linkedin-ad-adapter.ts:196-221 | one partial update of the campaign's status to PAUSED |
| LinkedInAds.ResumeCampaign | src/lib/linkedin-ad-adapter.ts:223-248 | one partial update to ACTIVE |
| LinkedInAds.DeleteCampaign | src/lib/linkedin-ad-adapter.ts:250-275 | one partial update to ARCHIVED; true iff it succeeds; never throws |
| LinkedInAds.CreativeShape | src/lib/linkedin-ad-adapter.ts:281-286 | the creative is a sponsored status update of the share, status PAUSED by default, and nothing else |
| LinkedInAds.AdDataShape | src/lib/linkedin-ad-adapter.ts:329-339 | the ad names the campaign and the creative by URN, status PAUSED by default, and the name when present |
| LinkedInAds.CreateAd | src/lib/linkedin-ad-adapter.ts:277-360 | two identical adCreativesV2 POSTs, then the adDirectSponsoredContentsV2 POST, whose creative URN uses the second reply's id; a reply without an id throws before the next request |
| LinkedInAds.AdUpdate | src/lib/linkedin-ad-adapter.ts:366-374 | exactly the supplied name and status |
| LinkedInAds.UpdateAd | src/lib/linkedin-ad-adapter.ts:362-393 | one POST to the ad with that payload and the partial-update headers |
| LinkedInAds.PauseAd | src/lib/linkedin-ad-adapter.ts:395-420 | one partial update of the ad's status to PAUSED |
| LinkedInAds.ResumeAd | src/lib/linkedin-ad-adapter.ts:422-447 | one partial update to ACTIVE |
| LinkedInAds.DeleteAd | src/lib/linkedin-ad-adapter.ts:449-474 | one partial update to ARCHIVED; true iff it succeeds; never throws |
| LinkedInAds.EntityFilter | src/lib/linkedin-ad-adapter.ts:498-506 | a filter exists iff both id and type are given and the type is campaign, creative or ad; it is the campaigns, creatives or creativeContents URN respectively |
| LinkedInAds.AnalyticsFilter | src/lib/linkedin-ad-adapter.ts:480-506 | a filter adds exactly its one key holding the one URN; without one the payload is the base report |
| LinkedInAds.GetAnalytics | src/lib/linkedin-ad-adapter.ts:476-524 | one POST to adAnalyticsV2 with the year-to-date daily report; result: the reply's `elements` |

## Left out

- Real I/O is not modelled: `fetch`, `response.json()` and the platforms are the scripted network. A malformed JSON body is a failed exchange (`Dropped`).
- The `setTimeout` wait in `handleRateLimiting` is not modelled; only the delay value is.
- `console.error` logging is not modelled.
- `Date`, `Date.now()` and `toISOString()` are parameters:
  - times are integer seconds (`now`), or milliseconds where the source uses them (`nowMs`, `scheduledMs`);
  - LinkedIn's analytics date is a `Day` parameter, read once where the source reads the clock three times.
- Token expiries are integer seconds, not ISO text.
- ExpiryAfter: applies the range of `Date` (±8.64e15 ms) to the expiry in whole UTC seconds. The clock's milliseconds and the local time zone, through which `setSeconds` computes, are not modelled. So an expiry within a second of the bound may be judged valid where the source finds it out of range.
- `process.env` client credentials are parameters (`Credentials`); an unset one is the empty string.
- `uuidv4` is a parameter (`newId`).
- SQL execution is not modelled. The store is a map from id to row. Only the update's SET clause is given a meaning (`ExecuteUpdate`).
- A database error is not modelled. An insert fails (null) only when its id is already taken, and an update never fails. The read-back after a write is the row written.
- These account functions have no operation in the model, because they are plain lookups and deletes over the same map: `getAllSocialMediaAccounts`, `getSocialMediaAccountById` and `deleteSocialMediaAccount`. The by-platform lookup is `AccountStore.HasAccountFor`.
- JavaScript numbers are exact:
  - JSON numbers in the model are integers; `Number()` of a string, array or object is an exact decimal (`Js.ToNumber`);
  - float rounding of × 100 and × 1,000,000 is not modelled, nor the loss of precision past 2^53, nor the overflow of a huge literal such as "1e400" to Infinity;
  - a scaled budget or bid that is not a whole number (`"0.125" * 100`) is sent as JSON null in the model, where the source sends the fractional number;
  - a NaN or infinite product is sent as JSON null, as `JSON.stringify` does.
- Account string fields hold text: a response value stored into one (a numeric `id`, say) is kept as its string form (`AdapterSupport.TextOf`), where the source keeps the raw value. Every use inside a template string reads the same either way; a use as a JSON value, such as `access_token` in a request body, sends the string where the source would send the raw value.
- The order of keys in a JSON object is not modelled: payloads are maps.
- A property whose value is `undefined` is left out of the payload, as `JSON.stringify` does. This covers Twitter's absent budgets.
- `src/lib/instagram-ad-adapter.ts` is not part of this model. It is not among the repository files, although a test imports it.
- `src/lib/user.ts`, `src/lib/content.ts`, `src/lib/ad-campaign.ts` and `src/lib/db.ts` are not part of this model. They hold password hashing, persistence of other records, and the database plumbing.
- `src/lib/ad-adapter.ts` declares only the ad adapter interface, so it has no behaviour to model.
- Twitter's and LinkedIn's content `scheduleContent` have no operation of their own in the model. Like Instagram's (`InstagramContent.ScheduleContent`), they send nothing and return `AdapterSupport.ScheduledAck`.
- Concurrency is not modelled: the adapters await each request before the next.
