/**
 * What the platform adapters share: the account updates that
 * authentication and token refresh settle on, the clock arithmetic of a
 * token expiry, the fallbacks of read operations, the synthetic reply of
 * scheduling, and the bookkeeping of the media-upload loops.
 */
module AdapterSupport {
  import opened Js
  import opened ApiRequestManager
  import opened SocialMediaAccounts

  /** Client credentials read from the environment; each is `process.env.X || ''`. */
  datatype Credentials = Credentials(clientId: Option<string>, clientSecret: Option<string>)

  function EnvString(v: Option<string>): string {
    if Present(v) then v.value else ""
  }

  /** The `content` argument of the publishing operations. */
  datatype Content = Content(text: Option<string>, mediaUrls: Option<seq<string>>)

  /** `content.media_urls && content.media_urls.length > 0`. */
  predicate HasMedia(c: Content) {
    c.mediaUrls.Some? && |c.mediaUrls.value| > 0
  }

  /** An optional string argument as a JavaScript value. */
  function OptStr(s: Option<string>): JsValue {
    match s
    case Some(t) => Some(JStr(t))
    case None => None
  }

  /** `{ ...account, status: 'expired' }`. */
  function Expire(a: Account): Account {
    a.(status := Expired)
  }

  /** A response value stored into a string field of the account. */
  function TextOf(j: Json): string {
    JsonString(j)
  }

  function Bearer(token: string): Headers {
    map["Authorization" := "Bearer " + token]
  }

  /** The body of an ok response, as a JavaScript value (the response object itself). */
  function Body(r: Outcome<Json>): JsValue
    requires r.Returns?
  {
    Some(r.value)
  }

  /** `response && response[key]`: the response is truthy and has a truthy `key`. */
  predicate HasTruthy(r: Outcome<Json>, key: string) {
    r.Returns? && JsonTruthy(r.value) && Truthy(Field(Body(r), key))
  }

  /**
   * The ad adapters' probe: `response && response[key] && response[key].length > 0`
   * activates the account; anything else, a failure included, expires it.
   * Nothing but the status changes.
   */
  function ListAuthenticated(a: Account, r: Outcome<Json>, key: string): (b: Account)
    ensures b.status == Active <==> HasTruthy(r, key) && NonEmptyList(Field(Body(r), key))
    ensures b.status == Active || b.status == Expired
    ensures b == a.(status := b.status)
  {
    if HasTruthy(r, key) && NonEmptyList(Field(Body(r), key)) then a.(status := Active) else Expire(a)
  }

  // ---------------------------------------------------------------------------
  // Request payloads

  /**
   * `if (input.from) { data.to = input.from }`: the key `to` holds the input
   * field exactly when that field is truthy (and keeps what it had
   * otherwise); every other key is left as it was.
   */
  function CopyTruthy(m: Fields, input: Fields, from: string, to: string): (r: Fields)
    ensures Truthy(Lookup(input, from)) ==> to in r && r[to] == input[from]
    ensures !Truthy(Lookup(input, from)) ==> (to in r <==> to in m) && (to in m ==> r[to] == m[to])
    ensures forall k :: k in m && k != to ==> k in r && r[k] == m[k]
    ensures forall k :: k in r && k != to ==> k in m
  {
    if Truthy(Lookup(input, from)) then m[to := input[from]] else m
  }

  /**
   * `if (input.from) { data.to = input.from * factor }`: the key `to` holds
   * the scaled input field exactly when that field is truthy (and keeps
   * what it had otherwise); every other key is left as it was.
   */
  function ScaleTruthy(m: Fields, input: Fields, from: string, to: string, factor: int): (r: Fields)
    ensures Truthy(Lookup(input, from)) ==> to in r && r[to] == Scaled(input[from], factor)
    ensures !Truthy(Lookup(input, from)) ==> (to in r <==> to in m) && (to in m ==> r[to] == m[to])
    ensures forall k :: k in m && k != to ==> k in r && r[k] == m[k]
    ensures forall k :: k in r && k != to ==> k in m
  {
    if Truthy(Lookup(input, from)) then m[to := Scaled(input[from], factor)] else m
  }

  /** `d` and `m` agree at `k`: both lack it, or both hold the same value there. */
  predicate SameAt(d: Fields, m: Fields, k: string) {
    (k in d <==> k in m) && (k in m ==> d[k] == m[k])
  }

  /** An optional field set under another key leaves key `k` as it was. */
  lemma CopyTruthyOther(m: Fields, input: Fields, from: string, to: string, k: string)
    requires k != to
    ensures SameAt(CopyTruthy(m, input, from, to), m, k)
  {
  }

  /** `data.key = input.key` in an object literal: sent whenever the input has it (undefined is left out). */
  predicate Copied(d: Fields, input: Fields, from: string, to: string) {
    (to in d <==> from in input) &&
    (to in d ==> d[to] == input[from])
  }

  /** `if (input.from) { data.to = input.from }`, seen from the payload. */
  predicate CopiedIfTruthy(d: Fields, input: Fields, from: string, to: string) {
    (to in d <==> Truthy(Lookup(input, from))) &&
    (to in d ==> d[to] == input[from])
  }

  /** `if (input.from) { data.to = input.from * factor }`, seen from the payload. */
  predicate SentScaled(d: Fields, input: Fields, from: string, to: string, factor: int) {
    (to in d <==> Truthy(Lookup(input, from))) &&
    (to in d ==> d[to] == Scaled(input[from], factor))
  }

  /** Adding a field that may be undefined leaves every other field as it was. */
  lemma WithFrame(m: Fields, key: string, v: JsValue)
    ensures forall k :: k in m && k != key ==> k in With(m, key, v) && With(m, key, v)[k] == m[k]
  {
  }

  /** `input.key || fallback` for an input dictionary. */
  function OrDefault(input: Fields, key: string, fallback: Json): Json {
    Or(Lookup(input, key), fallback)
  }

  /** A step of a creation workflow that fails, or answers without the id the next step needs, stops the workflow. */
  function StepFailure(r: Outcome<Json>, step: string): (e: Error)
    ensures r.Throws? ==> e == r.error
    ensures r.Returns? ==> e == NotCreated(step)
  {
    if r.Throws? then r.error else NotCreated(step)
  }

  /** The `id` of a created object. */
  function CreatedId(r: Outcome<Json>): Json
    requires HasTruthy(r, "id")
  {
    Field(Body(r), "id").value
  }

  /** `response && response.outer && response.outer.key`. */
  predicate HasTruthyIn(r: Outcome<Json>, outer: string, key: string) {
    HasTruthy(r, outer) && Truthy(Field(Field(Body(r), outer), key))
  }

  /** `response.data.id` of a created object. */
  function CreatedDataId(r: Outcome<Json>): Json
    requires HasTruthyIn(r, "data", "id")
  {
    Field(Field(Body(r), "data"), "id").value
  }

  // ---------------------------------------------------------------------------
  // Token refresh

  /** The largest time a JavaScript `Date` holds, 8.64e15 ms, in seconds. */
  const MaxDateSeconds := 8_640_000_000_000

  /** `setSeconds` leaves a valid date exactly when the time stays within ±8.64e15 ms. */
  predicate InDateRange(t: int) {
    -MaxDateSeconds <= t <= MaxDateSeconds
  }

  /**
   * `d = new Date(); d.setSeconds(d.getSeconds() + expiresIn)` on a clock
   * reading `now` seconds: the new time, or None for an invalid date (on
   * which `toISOString` throws). A number or boolean is added; anything else
   * is concatenated onto the seconds-of-minute digits, converted back with
   * `Number` and truncated toward zero, as `setSeconds` does. A time past
   * the range of `Date` is an invalid date too.
   */
  function ExpiryAfter(now: int, expiresIn: Json): (t: Option<int>)
    ensures t.Some? ==> InDateRange(t.value)
    ensures expiresIn.JNum? ==> (t.Some? <==> InDateRange(now + expiresIn.n))
    ensures expiresIn.JNum? && t.Some? ==> t.value == now + expiresIn.n
  {
    match SetSeconds(now, expiresIn)
    case Some(time) => if InDateRange(time) then Some(time) else None
    case None => None
  }

  /** The time `setSeconds(getSeconds() + expiresIn)` computes, before the range of `Date` is applied. */
  function SetSeconds(now: int, expiresIn: Json): Option<int> {
    var sec := now % 60;
    match expiresIn
    case JNum(n) => Some(now + n)
    case JBool(b) => Some(now + if b then 1 else 0)
    case JNull => Some(now)
    case _ =>
      match ToNumber(JStr(DecimalString(sec) + JsonString(expiresIn)))
      case Some(d) => Some(now - sec + Truncated(d))
      case None => None
  }

  /** `response.expires_in || default`. */
  function ExpiresIn(r: Outcome<Json>, default: int): Json
    requires r.Returns?
  {
    Or(Field(Body(r), "expires_in"), JNum(default))
  }

  /** The response grants a token and its expiry is a valid date. */
  predicate Granted(r: Outcome<Json>, now: int, default: int) {
    HasTruthy(r, "access_token") && ExpiryAfter(now, ExpiresIn(r, default)).Some?
  }

  /**
   * How refreshToken settles once the token request has settled as `r`
   * (the refresh token is known to be present). A response with a truthy
   * `access_token` activates the account with the new token and an expiry
   * `expires_in` (or `default`) seconds ahead; if `rotates`, a returned
   * refresh token replaces the old one. Anything else expires the account.
   */
  function Refreshed(a: Account, r: Outcome<Json>, now: int, default: int, rotates: bool): (b: Account)
    ensures b.id == a.id && b.userId == a.userId && b.platform == a.platform
    ensures b.accountName == a.accountName && b.accountId == a.accountId
    ensures b.createdAt == a.createdAt && b.updatedAt == a.updatedAt
    ensures b.status == Active <==> Granted(r, now, default)
    ensures !Granted(r, now, default) ==> b == Expire(a)
    ensures Granted(r, now, default) ==>
      b.accessToken == TextOf(Field(Body(r), "access_token").value) &&
      b.tokenExpiry == ExpiryAfter(now, ExpiresIn(r, default))
    ensures Granted(r, now, default) && (!rotates || !Truthy(Field(Body(r), "refresh_token"))) ==>
      b.refreshToken == a.refreshToken
    ensures Granted(r, now, default) && rotates && Truthy(Field(Body(r), "refresh_token")) ==>
      b.refreshToken == Some(TextOf(Field(Body(r), "refresh_token").value))
  {
    if !Granted(r, now, default) then Expire(a)
    else
      var rotated := Field(Body(r), "refresh_token");
      a.(accessToken := TextOf(Field(Body(r), "access_token").value),
         refreshToken := if rotates && Truthy(rotated) then Some(TextOf(rotated.value)) else a.refreshToken,
         tokenExpiry := ExpiryAfter(now, ExpiresIn(r, default)),
         status := Active)
  }

  /**
   * A grant with a numeric `expires_in` of n seconds (n != 0) expires n
   * seconds from now; one without `expires_in` (or with 0) expires after the
   * platform default. An expiry past the range of `Date` makes
   * `toISOString` throw, and the account expires instead.
   */
  lemma GrantExpiry(a: Account, r: Outcome<Json>, now: int, default: int, rotates: bool)
    requires HasTruthy(r, "access_token")
    ensures var e := Field(Body(r), "expires_in");
      var b := Refreshed(a, r, now, default, rotates);
      e.Some? && e.value.JNum? && e.value.n != 0 ==>
        (b.status == Active <==> InDateRange(now + e.value.n)) &&
        (InDateRange(now + e.value.n) ==> b.tokenExpiry == Some(now + e.value.n)) &&
        (!InDateRange(now + e.value.n) ==> b == Expire(a))
    ensures var e := Field(Body(r), "expires_in");
      var b := Refreshed(a, r, now, default, rotates);
      e.None? || e == Some(JNum(0)) || e == Some(JNull) ==>
        (b.status == Active <==> InDateRange(now + default)) &&
        (InDateRange(now + default) ==> b.tokenExpiry == Some(now + default)) &&
        (!InDateRange(now + default) ==> b == Expire(a))
  {
  }

  /** A string `expires_in` that reads, after the seconds of the minute `sec`, as the integer `v`. */
  lemma ExpiryOfText(now: int, sec: int, s: string, v: int)
    requires sec == now % 60 && ToNumber(JStr(DecimalString(sec) + s)) == Some(Decimal(v, 0))
    ensures ExpiryAfter(now, JStr(s)) == if InDateRange(now - sec + v) then Some(now - sec + v) else None
  {
    WholeInteger(v);
  }

  /**
   * A string `expires_in` of digits d is appended to the seconds of the
   * minute, as JavaScript's `+` does: "60" at 42 seconds past the minute
   * sets the seconds to 4260.
   */
  lemma StringExpiresIn(now: int, d: nat)
    ensures var t := now - now % 60 + Appended(now % 60, |NatString(d)|, d);
      ExpiryAfter(now, JStr(NatString(d))) == if InDateRange(t) then Some(t) else None
  {
    var sec := now % 60;
    SecondsThenDigits(sec, d);
    ExpiryOfText(now, sec, NatString(d), Appended(sec, |NatString(d)|, d));
  }

  /** The seconds `sec` written before the digits of `d` read as one number. */
  lemma SecondsThenDigits(sec: nat, d: nat)
    ensures ToNumber(JStr(DecimalString(sec) + NatString(d))) == Some(Decimal(Appended(sec, |NatString(d)|, d), 0))
  {
    assert DecimalString(sec) == NatString(sec);
    ConcatenatedNumber(sec, d);
  }

  // ---------------------------------------------------------------------------
  // Read operations

  /** `return response.data`: reading from a null response throws. */
  function DataOf(r: Outcome<Json>, key: string): (d: Outcome<JsValue>)
    ensures r.Throws? ==> d == Throws(r.error)
    ensures r.Returns? && r.value.JNull? ==> d == Throws(TypeError)
    ensures r.Returns? && !r.value.JNull? ==> d == Returns(Field(Body(r), key))
  {
    match r
    case Throws(e) => Throws(e)
    case Returns(body) => Member(Some(body), key)
  }

  /** `try { return response[key] || [] } catch { return [] }`. */
  function CommentsOf(r: Outcome<Json>, key: string): (c: Json)
    ensures c == JArr([]) || (r.Returns? && Field(Body(r), key) == Some(c) && JsonTruthy(c))
    ensures r.Returns? && Truthy(Field(Body(r), key)) ==> Some(c) == Field(Body(r), key)
    ensures r.Returns? && !Truthy(Field(Body(r), key)) ==> c == JArr([])
    ensures r.Throws? ==> c == JArr([])
  {
    match r
    case Throws(_) => JArr([])
    case Returns(body) =>
      match Member(Some(body), key)
      case Throws(_) => JArr([])
      case Returns(v) => Or(v, JArr([]))
  }

  /** `await makeRequest(...); return true` inside a try whose catch returns false. */
  function Succeeded(r: Outcome<Json>): (ok: bool)
    ensures ok <==> r.Returns?
  {
    r.Returns?
  }

  // ---------------------------------------------------------------------------
  // Scheduling without the platform

  /** "İçerik planlandı, belirtilen zamanda yayınlanacak" (the content was scheduled and will be published at the given time). */
  const ScheduledMessage: string :=
    "\U{130}\U{E7}erik planland\U{131}, belirtilen zamanda yay\U{131}nlanacak"

  /** The object a platform without scheduling support returns, at clock reading `nowMs`. */
  function ScheduledAck(nowMs: int, scheduledTime: string): (j: Json)
    ensures j.JObj? && j.fields.Keys == {"id", "scheduled_time", "status", "message"}
    ensures j.fields["id"] == JStr("scheduled_" + DecimalString(nowMs))
    ensures j.fields["scheduled_time"] == JStr(scheduledTime) && j.fields["status"] == JStr("scheduled")
    ensures j.fields["message"] == JStr(ScheduledMessage)
  {
    JObj(map["id" := JStr("scheduled_" + DecimalString(nowMs)), "scheduled_time" := JStr(scheduledTime),
             "status" := JStr("scheduled"), "message" := JStr(ScheduledMessage)])
  }

  // ---------------------------------------------------------------------------
  // Media-upload loops

  /**
   * How one iteration of an upload loop ends: the reply is skipped, yields
   * an item to keep, or throws, which abandons the loop (the catch around
   * it returns an empty list).
   */
  datatype UploadStep = Skipped | Kept(item: Json) | Aborted

  /** None of the first `n` iterations throws. */
  predicate NoAbortBefore(steps: seq<UploadStep>, n: nat) {
    forall i :: 0 <= i < n && i < |steps| ==> !steps[i].Aborted?
  }

  /** The items the first `n` iterations keep, in order. */
  function KeptBefore(steps: seq<UploadStep>, n: nat): seq<Json>
    requires n <= |steps|
    decreases n
  {
    if n == 0 then []
    else KeptBefore(steps, n - 1) + if steps[n - 1].Kept? then [steps[n - 1].item] else []
  }

  /** What the loop returns: the kept items, or nothing once any iteration threw. */
  function Collected(steps: seq<UploadStep>): seq<Json> {
    if NoAbortBefore(steps, |steps|) then KeptBefore(steps, |steps|) else []
  }

  /** How many requests the loop issues: up to and including the first that throws. */
  function Issued(steps: seq<UploadStep>): (n: nat)
    ensures n <= |steps|
    decreases |steps|
  {
    if |steps| == 0 then 0 else if steps[0].Aborted? then 1 else 1 + Issued(steps[1..])
  }

  lemma {:induction false} IssuedAll(steps: seq<UploadStep>)
    requires NoAbortBefore(steps, |steps|)
    ensures Issued(steps) == |steps|
    decreases |steps|
  {
    if |steps| > 0 {
      assert !steps[0].Aborted?;
      assert NoAbortBefore(steps[1..], |steps[1..]|) by {
        forall i | 0 <= i < |steps[1..]|
          ensures !steps[1..][i].Aborted?
        {
          assert steps[1..][i] == steps[i + 1];
        }
      }
      IssuedAll(steps[1..]);
    }
  }

  lemma {:induction false} IssuedUpTo(steps: seq<UploadStep>, i: nat)
    requires i < |steps| && steps[i].Aborted? && NoAbortBefore(steps, i)
    ensures Issued(steps) == i + 1
    decreases i
  {
    if i > 0 {
      assert !steps[0].Aborted?;
      assert NoAbortBefore(steps[1..], i - 1) by {
        forall j | 0 <= j < i - 1
          ensures !steps[1..][j].Aborted?
        {
          assert steps[1..][j] == steps[j + 1];
        }
      }
      IssuedUpTo(steps[1..], i - 1);
    }
  }

  /** An iteration that throws ends the loop after its own request, with nothing collected. */
  lemma UploadAbort(steps: seq<UploadStep>, i: nat)
    requires i < |steps| && steps[i].Aborted? && NoAbortBefore(steps, i)
    ensures Issued(steps) == i + 1 && Collected(steps) == []
  {
    IssuedUpTo(steps, i);
  }

  /** A loop that never throws issues every request and keeps what they yield. */
  lemma UploadFinish(steps: seq<UploadStep>, i: nat)
    requires i == |steps| && NoAbortBefore(steps, i)
    ensures Issued(steps) == i && Collected(steps) == KeptBefore(steps, i)
  {
    IssuedAll(steps);
  }

  /** At most one item per iteration. */
  lemma {:induction false} KeptBeforeBound(steps: seq<UploadStep>, n: nat)
    requires n <= |steps|
    ensures |KeptBefore(steps, n)| <= n
    decreases n
  {
    if n > 0 {
      KeptBeforeBound(steps, n - 1);
    }
  }

  /** Later iterations only add items at the end: the items keep the order of the requests. */
  lemma {:induction false} KeptBeforePrefix(steps: seq<UploadStep>, m: nat, n: nat)
    requires m <= n <= |steps|
    ensures KeptBefore(steps, m) <= KeptBefore(steps, n)
    decreases n - m
  {
    if m < n {
      KeptBeforePrefix(steps, m, n - 1);
    }
  }

  /** When every iteration yields an item, all items are kept, in request order. */
  lemma {:induction false} KeptBeforeAll(steps: seq<UploadStep>, n: nat)
    requires n <= |steps|
    requires forall i :: 0 <= i < n ==> steps[i].Kept?
    ensures |KeptBefore(steps, n)| == n
    ensures forall i :: 0 <= i < n ==> KeptBefore(steps, n)[i] == steps[i].item
    decreases n
  {
    if n > 0 {
      KeptBeforeAll(steps, n - 1);
    }
  }

  /** Nothing is kept exactly when no iteration yields an item. */
  lemma {:induction false} KeptBeforeNone(steps: seq<UploadStep>, n: nat)
    requires n <= |steps|
    ensures KeptBefore(steps, n) == [] <==> forall i :: 0 <= i < n ==> !steps[i].Kept?
    decreases n
  {
    if n > 0 {
      KeptBeforeNone(steps, n - 1);
    }
  }

  /** The loop's result holds at most one item per URL. */
  lemma CollectedBound(steps: seq<UploadStep>)
    ensures |Collected(steps)| <= |steps|
  {
    KeptBeforeBound(steps, |steps|);
  }
}
