/** The serverless stats proxy (netlify/functions/social-stats.js): it reads
    four optional credentials, asks the Instagram Graph API and then the
    YouTube Data API for counts, and answers with one flat JSON object, or a
    fixed 500 when anything throws. The environment and each upstream's
    outcome are inputs; the outbound calls it makes and the response it
    returns are the result. */
module SocialStats {
  import opened Optional

  // ---------------------------------------------------------------------
  // JavaScript values, as far as the handler looks at them
  // ---------------------------------------------------------------------

  /** A JavaScript value as produced by `JSON.parse`, plus `undefined` for a
      missing property. JSON has no NaN, so a number is a real. */
  datatype Value =
    | Undefined
    | Null
    | Bool(b: bool)
    | Num(n: real)
    | Str(s: string)
    | Arr(elems: seq<Value>)
    | Obj(props: map<string, Value>)

  predicate Truthy(v: Value) {
    match v
    case Undefined => false
    case Null => false
    case Bool(b) => b
    case Num(n) => n != 0.0
    case Str(s) => s != ""
    case Arr(_) => true
    case Obj(_) => true
  }

  /** The values whose property access throws a TypeError */
  predicate Nullish(v: Value) {
    v.Undefined? || v.Null?
  }

  /** `v.key` for one of the property names the handler reads; none of them
      is an index or a built-in property of strings, arrays, numbers or
      booleans, so only objects have them. */
  function Get(v: Value, key: string): (r: Value)
    requires !Nullish(v)
    ensures !v.Obj? ==> r == Undefined
    ensures v.Obj? ==> (r == Undefined || key in v.props)
  {
    if v.Obj? && key in v.props then v.props[key] else Undefined
  }

  /** `v[0]` */
  function First(v: Value): Value
    requires !Nullish(v)
  {
    match v
    case Arr(elems) => if |elems| > 0 then elems[0] else Undefined
    case Str(s) => if |s| > 0 then Str([s[0]]) else Undefined
    case Obj(props) => if "0" in props then props["0"] else Undefined
    case _ => Undefined
  }

  /** `a || b` */
  function Or(a: Value, b: Value): Value {
    if Truthy(a) then a else b
  }

  // ---------------------------------------------------------------------
  // Number()
  // ---------------------------------------------------------------------

  /** A JavaScript number after coercion: NaN is possible here */
  datatype Number = Finite(r: real) | NaN

  predicate IsDigit(c: char) {
    '0' <= c <= '9'
  }

  predicate AllDigits(s: string) {
    forall i :: 0 <= i < |s| ==> IsDigit(s[i])
  }

  /** The value of a string of decimal digits, most significant first */
  function DigitsValue(s: string): nat
    requires AllDigits(s)
    decreases |s|
  {
    if |s| == 0 then 0
    else 10 * DigitsValue(s[..|s| - 1]) + (s[|s| - 1] as int - '0' as int)
  }

  /** `Number(s)` for the empty string and for plain digit strings, the form
      the YouTube API uses for its counts */
  function StringToNumber(s: string): Number {
    if s == "" then Finite(0.0)
    else if AllDigits(s) then Finite(DigitsValue(s) as real)
    else NaN
  }

  /** `Number(v)` */
  function ToNumber(v: Value): Number {
    match v
    case Undefined => NaN
    case Null => Finite(0.0)
    case Bool(b) => Finite(if b then 1.0 else 0.0)
    case Num(n) => Finite(n)
    case Str(s) => StringToNumber(s)
    case Arr(elems) => if |elems| == 0 then Finite(0.0) else NaN
    case Obj(_) => NaN
  }

  /** `Number(v || 0)`: how every count is read. A missing or falsy count is
      0; a count the API sends as a number or a digit string keeps its value. */
  function Count(v: Value): (c: Number)
    ensures !Truthy(v) ==> c == Finite(0.0)
    ensures v.Num? ==> c == Finite(v.n)
    ensures v.Str? && v.s != "" && AllDigits(v.s) ==> c == Finite(DigitsValue(v.s) as real)
  {
    ToNumber(Or(v, Num(0.0)))
  }

  // ---------------------------------------------------------------------
  // Extracting the counts from each upstream body
  // ---------------------------------------------------------------------

  /** How a piece of the handler ends: with a value, or by throwing */
  datatype Completion<T> = Normal(value: T) | Throw

  /** The Instagram follower count from the parsed Graph API body: none when
      the body is falsy or carries an `error`, otherwise its count. */
  function InstagramFollowers(igData: Value): (r: Option<Number>)
    ensures r.None? <==> !Truthy(igData) || Truthy(Get(igData, "error"))
    ensures r.Some? ==> r.value == Count(Get(igData, "followers_count"))
  {
    if Truthy(igData) && !Truthy(Get(igData, "error")) then
      Some(Count(Get(igData, "followers_count")))
    else None
  }

  /** `ytData.items && ytData.items[0] && ytData.items[0].statistics`; it
      throws when `ytData` itself is null. */
  function StatisticsOf(ytData: Value): (r: Completion<Value>)
    ensures r.Throw? <==> Nullish(ytData)
  {
    if Nullish(ytData) then Throw
    else
      var items := Get(ytData, "items");
      if !Truthy(items) then Normal(items)
      else
        var first := First(items);
        if !Truthy(first) then Normal(first)
        else Normal(Get(first, "statistics"))
  }

  /** The channel's statistics object, when the body is an object whose
      `items` array starts with an object holding one */
  predicate HasStatistics(ytData: Value) {
    && ytData.Obj?
    && "items" in ytData.props
    && ytData.props["items"].Arr?
    && |ytData.props["items"].elems| > 0
    && ytData.props["items"].elems[0].Obj?
    && "statistics" in ytData.props["items"].elems[0].props
  }

  function Statistics(ytData: Value): Value
    requires HasStatistics(ytData)
  {
    ytData.props["items"].elems[0].props["statistics"]
  }

  /** The `if (stats)` test: the `items[0].statistics` chain ends on a
      truthy value */
  predicate StatisticsPresent(ytData: Value) {
    StatisticsOf(ytData).Normal? && Truthy(StatisticsOf(ytData).value)
  }

  /** Subscriber and view counts from the parsed channels body: both or
      neither are present, they are present exactly when the statistics chain
      ends on a truthy value, and both come from the first item's statistics. */
  function YouTubeCounts(ytData: Value): (r: Completion<(Option<Number>, Option<Number>)>)
    ensures r.Throw? <==> Nullish(ytData)
    ensures r.Normal? ==> (r.value.0.Some? <==> r.value.1.Some?)
    ensures r.Normal? ==> (r.value.0.Some? <==> StatisticsPresent(ytData))
    ensures StatisticsPresent(ytData) ==>
              r == Normal((Some(Count(Get(StatisticsOf(ytData).value, "subscriberCount"))),
                           Some(Count(Get(StatisticsOf(ytData).value, "viewCount")))))
    ensures HasStatistics(ytData) && !Truthy(Statistics(ytData)) ==> r == Normal((None, None))
    ensures !Nullish(ytData) && !ytData.Obj? ==> r == Normal((None, None))
    ensures HasStatistics(ytData) && Truthy(Statistics(ytData)) ==>
              r == Normal((Some(Count(Get(Statistics(ytData), "subscriberCount"))),
                           Some(Count(Get(Statistics(ytData), "viewCount")))))
    ensures ytData.Obj? && !HasStatistics(ytData) && ("items" in ytData.props ==> ytData.props["items"].Arr?)
            ==> r == Normal((None, None))
  {
    match StatisticsOf(ytData)
    case Throw => Throw
    case Normal(stats) =>
      if Truthy(stats) then
        Normal((Some(Count(Get(stats, "subscriberCount"))), Some(Count(Get(stats, "viewCount")))))
      else Normal((None, None))
  }

  // ---------------------------------------------------------------------
  // The handler
  // ---------------------------------------------------------------------

  /** The four optional settings of the function's environment */
  datatype Env = Env(igUserId: Option<string>, igAccessToken: Option<string>,
                     ytApiKey: Option<string>, ytChannelId: Option<string>)

  /** A setting counts as present only when it is a non-empty string */
  predicate IsSet(setting: Option<string>) {
    setting.Some? && setting.value != ""
  }

  predicate InstagramConfigured(env: Env) {
    IsSet(env.igUserId) && IsSet(env.igAccessToken)
  }

  predicate YouTubeConfigured(env: Env) {
    IsSet(env.ytApiKey) && IsSet(env.ytChannelId)
  }

  /** What an upstream request ends with: a fetch or `.json()` that throws, or
      the parsed body */
  datatype Upstream = Threw | Parsed(body: Value)

  /** An outbound request, with the settings it puts in its URL */
  datatype Call =
    | InstagramCall(userId: string, accessToken: string)
    | YouTubeCall(channelId: string, apiKey: string)

  /** The returned response; the body is the object handed to
      `JSON.stringify`, with its keys in order */
  datatype Response = Response(statusCode: int, headers: map<string, string>, body: seq<(string, Value)>)

  datatype Invocation = Invocation(calls: seq<Call>, response: Response)

  const ErrorMessage: string := "Failed to fetch social stats"

  function JsonHeaders(): map<string, string> {
    map["Content-Type" := "application/json", "Access-Control-Allow-Origin" := "*"]
  }

  /** The response of the catch block */
  function ServerError(): Response {
    Response(500, map[], [("error", Str(ErrorMessage))])
  }

  /** A count as `JSON.stringify` writes it: null stays null, and so does NaN */
  function Serialize(count: Option<Number>): Value {
    match count
    case None => Null
    case Some(NaN) => Null
    case Some(Finite(r)) => Num(r)
  }

  function Success(followers: Option<Number>, subscribers: Option<Number>, views: Option<Number>): Response {
    Response(200, JsonHeaders(),
             [("instagramFollowers", Serialize(followers)),
              ("youtubeSubscribers", Serialize(subscribers)),
              ("youtubeViews", Serialize(views))])
  }

  /** One invocation of the handler, given the environment and what each
      upstream request would end with if it were made. */
  function Handler(env: Env, ig: Upstream, yt: Upstream): (inv: Invocation)
    ensures inv.response.statusCode == 200 || inv.response.statusCode == 500
    ensures inv.response.statusCode == 500 ==> inv.response == ServerError()
    ensures inv.response.statusCode == 200 ==>
              && inv.response.headers == JsonHeaders()
              && |inv.response.body| == 3
              && inv.response.body[0].0 == "instagramFollowers"
              && inv.response.body[1].0 == "youtubeSubscribers"
              && inv.response.body[2].0 == "youtubeViews"
    ensures |inv.calls| <= 2
  {
    var igCalls := if InstagramConfigured(env) then [InstagramCall(env.igUserId.value, env.igAccessToken.value)] else [];
    if InstagramConfigured(env) && ig.Threw? then
      Invocation(igCalls, ServerError())
    else
      var followers := if InstagramConfigured(env) then InstagramFollowers(ig.body) else None;
      var ytCalls := if YouTubeConfigured(env) then [YouTubeCall(env.ytChannelId.value, env.ytApiKey.value)] else [];
      var youtube: Completion<(Option<Number>, Option<Number>)> :=
        if !YouTubeConfigured(env) then Normal((None, None))
        else if yt.Threw? then Throw
        else YouTubeCounts(yt.body);
      match youtube
      case Throw => Invocation(igCalls + ytCalls, ServerError())
      case Normal((subscribers, views)) => Invocation(igCalls + ytCalls, Success(followers, subscribers, views))
  }

  // ---------------------------------------------------------------------
  // Properties of the handler
  // ---------------------------------------------------------------------

  /** Where the handler throws: a request that was made and threw, or a
      YouTube body of null */
  predicate Throws(env: Env, ig: Upstream, yt: Upstream) {
    || (InstagramConfigured(env) && ig.Threw?)
    || (YouTubeConfigured(env) && (yt.Threw? || Nullish(yt.body)))
  }

  predicate CallsInstagram(calls: seq<Call>) {
    exists i :: 0 <= i < |calls| && calls[i].InstagramCall?
  }

  predicate CallsYouTube(calls: seq<Call>) {
    exists i :: 0 <= i < |calls| && calls[i].YouTubeCall?
  }

  /** The handler fails with the fixed 500 exactly when something throws,
      whatever had already been computed. */
  lemma FailsExactlyOnThrow(env: Env, ig: Upstream, yt: Upstream)
    ensures Handler(env, ig, yt).response.statusCode == 500 <==> Throws(env, ig, yt)
    ensures Throws(env, ig, yt) ==> Handler(env, ig, yt).response == ServerError()
  {
  }

  /** Instagram is asked, once and first, exactly when both of its settings
      are present, with those settings; YouTube is asked, once and last,
      exactly when both of its settings are present and the Instagram request
      did not throw. */
  lemma OutboundCalls(env: Env, ig: Upstream, yt: Upstream)
    ensures CallsInstagram(Handler(env, ig, yt).calls) <==> InstagramConfigured(env)
    ensures CallsYouTube(Handler(env, ig, yt).calls) <==>
              YouTubeConfigured(env) && !(InstagramConfigured(env) && ig.Threw?)
    ensures InstagramConfigured(env) ==>
              Handler(env, ig, yt).calls[0] == InstagramCall(env.igUserId.value, env.igAccessToken.value)
    ensures CallsYouTube(Handler(env, ig, yt).calls) ==>
              var calls := Handler(env, ig, yt).calls;
              calls[|calls| - 1] == YouTubeCall(env.ytChannelId.value, env.ytApiKey.value)
    ensures var calls := Handler(env, ig, yt).calls;
            forall i, j :: 0 <= i < j < |calls| ==> calls[i].InstagramCall? && calls[j].YouTubeCall?
  {
    var calls := Handler(env, ig, yt).calls;
    if InstagramConfigured(env) {
      assert calls[0].InstagramCall?;
    }
    if YouTubeConfigured(env) && !(InstagramConfigured(env) && ig.Threw?) {
      assert calls[|calls| - 1].YouTubeCall?;
    }
  }

  /** The three fields of a successful response */
  function Fields(r: Response): (Value, Value, Value)
    requires |r.body| == 3
  {
    (r.body[0].1, r.body[1].1, r.body[2].1)
  }

  /** The Instagram field: null without both settings, null for a falsy body
      or one with an `error`, and the coerced count otherwise. */
  lemma InstagramField(env: Env, ig: Upstream, yt: Upstream)
    requires Handler(env, ig, yt).response.statusCode == 200
    ensures !InstagramConfigured(env) ==> Fields(Handler(env, ig, yt).response).0 == Null
    ensures InstagramConfigured(env) ==>
              Fields(Handler(env, ig, yt).response).0 == Serialize(InstagramFollowers(ig.body))
    ensures InstagramConfigured(env) && (!Truthy(ig.body) || Truthy(Get(ig.body, "error"))) ==>
              Fields(Handler(env, ig, yt).response).0 == Null
    ensures InstagramConfigured(env) && Truthy(ig.body) && !Truthy(Get(ig.body, "error"))
              && !Truthy(Get(ig.body, "followers_count")) ==>
              Fields(Handler(env, ig, yt).response).0 == Num(0.0)
  {
  }

  /** The YouTube fields: both null without both settings, without a
      statistics object, with a falsy one, or for a body that is not an
      object; the coerced counts (a falsy one as 0) when the first item has
      truthy statistics. */
  lemma YouTubeFields(env: Env, ig: Upstream, yt: Upstream)
    requires Handler(env, ig, yt).response.statusCode == 200
    ensures !YouTubeConfigured(env) ==>
              Fields(Handler(env, ig, yt).response).1 == Null && Fields(Handler(env, ig, yt).response).2 == Null
    ensures YouTubeConfigured(env) && HasStatistics(yt.body) && Truthy(Statistics(yt.body)) ==>
              && Fields(Handler(env, ig, yt).response).1 == Serialize(Some(Count(Get(Statistics(yt.body), "subscriberCount"))))
              && Fields(Handler(env, ig, yt).response).2 == Serialize(Some(Count(Get(Statistics(yt.body), "viewCount"))))
    ensures YouTubeConfigured(env) && yt.body.Obj? && !HasStatistics(yt.body)
              && ("items" in yt.body.props ==> yt.body.props["items"].Arr?) ==>
              Fields(Handler(env, ig, yt).response).1 == Null && Fields(Handler(env, ig, yt).response).2 == Null
    ensures YouTubeConfigured(env) && HasStatistics(yt.body) && !Truthy(Statistics(yt.body)) ==>
              Fields(Handler(env, ig, yt).response).1 == Null && Fields(Handler(env, ig, yt).response).2 == Null
    ensures YouTubeConfigured(env) && !yt.body.Obj? ==>
              Fields(Handler(env, ig, yt).response).1 == Null && Fields(Handler(env, ig, yt).response).2 == Null
    ensures YouTubeConfigured(env) && !StatisticsPresent(yt.body) ==>
              Fields(Handler(env, ig, yt).response).1 == Null && Fields(Handler(env, ig, yt).response).2 == Null
    ensures YouTubeConfigured(env) && StatisticsPresent(yt.body) ==>
              && Fields(Handler(env, ig, yt).response).1 == Serialize(Some(Count(Get(StatisticsOf(yt.body).value, "subscriberCount"))))
              && Fields(Handler(env, ig, yt).response).2 == Serialize(Some(Count(Get(StatisticsOf(yt.body).value, "viewCount"))))
  {
  }

  /** On success each upstream's fields depend on that upstream alone. */
  lemma UpstreamsIndependent(env: Env, ig1: Upstream, ig2: Upstream, yt1: Upstream, yt2: Upstream)
    requires Handler(env, ig1, yt1).response.statusCode == 200
    requires Handler(env, ig1, yt2).response.statusCode == 200
    requires Handler(env, ig2, yt1).response.statusCode == 200
    ensures Fields(Handler(env, ig1, yt1).response).0 == Fields(Handler(env, ig1, yt2).response).0
    ensures Fields(Handler(env, ig1, yt1).response).1 == Fields(Handler(env, ig2, yt1).response).1
    ensures Fields(Handler(env, ig1, yt1).response).2 == Fields(Handler(env, ig2, yt1).response).2
  {
  }

  // ---------------------------------------------------------------------
  // Worked cases
  // ---------------------------------------------------------------------

  /** Every setting present, Instagram reporting 1234 followers and YouTube
      500 subscribers and 9999 views as digit strings. */
  lemma ExampleAllCounts()
    ensures
      var env := Env(Some("user"), Some("token"), Some("key"), Some("channel"));
      var ig := Parsed(Obj(map["followers_count" := Num(1234.0)]));
      var stats := Obj(map["subscriberCount" := Str("500"), "viewCount" := Str("9999")]);
      var yt := Parsed(Obj(map["items" := Arr([Obj(map["statistics" := stats])])]));
      Handler(env, ig, yt) == Invocation(
        [InstagramCall("user", "token"), YouTubeCall("channel", "key")],
        Response(200, JsonHeaders(),
                 [("instagramFollowers", Num(1234.0)),
                  ("youtubeSubscribers", Num(500.0)),
                  ("youtubeViews", Num(9999.0))]))
  {
    var env := Env(Some("user"), Some("token"), Some("key"), Some("channel"));
    var igBody := Obj(map["followers_count" := Num(1234.0)]);
    var stats := Obj(map["subscriberCount" := Str("500"), "viewCount" := Str("9999")]);
    var ytBody := Obj(map["items" := Arr([Obj(map["statistics" := stats])])]);
    assert InstagramConfigured(env) && YouTubeConfigured(env);
    assert InstagramFollowers(igBody) == Some(Finite(1234.0));
    DigitsExample();
    assert HasStatistics(ytBody) && Statistics(ytBody) == stats;
    assert YouTubeCounts(ytBody) == Normal((Some(Finite(500.0)), Some(Finite(9999.0))));
  }

  lemma DigitsExample()
    ensures AllDigits("500") && DigitsValue("500") == 500
    ensures AllDigits("9999") && DigitsValue("9999") == 9999
  {
    assert "500"[..2] == "50" && "50"[..1] == "5" && "5"[..0] == "";
    assert "9999"[..3] == "999" && "999"[..2] == "99" && "99"[..1] == "9" && "9"[..0] == "";
  }

  /** No settings at all: no request, and three nulls. */
  lemma ExampleUnconfigured(ig: Upstream, yt: Upstream)
    ensures Handler(Env(None, None, None, None), ig, yt) ==
              Invocation([], Response(200, JsonHeaders(),
                                      [("instagramFollowers", Null), ("youtubeSubscribers", Null), ("youtubeViews", Null)]))
  {
  }
}
