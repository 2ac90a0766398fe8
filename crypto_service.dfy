/** The domain service (src/lib/services/crypto.service.ts): typed accessors over
    the transport client. In development mode every accessor answers from local
    mock data and never calls the client; otherwise it issues one GET (one POST
    for the newsletter) and downgrades any error to an empty, null or false result
    after handing it to `HandleApiError`. The 500 ms mock delay is not modelled. */
module CryptoService {
  import opened Wrappers
  import opened Js
  import Config
  import opened Api

  datatype CryptoAsset = CryptoAsset(
    id: string,
    name: string,
    symbol: string,
    price: real,
    change24h: real,
    marketCap: int,
    volume: int,
    imageUrl: string)

  datatype GrowthTrend = GrowthTrend(name: string, value: int, users: int, transactions: int)

  datatype MarketStats = MarketStats(
    totalValueLocked: int,
    activeUsers: int,
    transactionVolume: int,
    averageFee: real,
    growthTrends: seq<GrowthTrend>)

  datatype PricePoint = PricePoint(timestamp: int, price: real)

  /** What an accessor returns: a value it made itself (mock data or the neutral
      result after an error), or the body the server sent, unchanged. */
  datatype Served<T> = Local(value: T) | Remote(data: Body)

  const MOCK_ASSETS: seq<CryptoAsset> := [
    CryptoAsset("bitcoin", "Bitcoin", "BTC", 50000.0, 2.5, 950000000000, 30000000000,
                "https://cryptologos.cc/logos/bitcoin-btc-logo.png"),
    CryptoAsset("ethereum", "Ethereum", "ETH", 3000.0, 1.8, 350000000000, 20000000000,
                "https://cryptologos.cc/logos/ethereum-eth-logo.png"),
    CryptoAsset("solana", "Solana", "SOL", 150.0, 7.2, 65000000000, 5000000000,
                "https://cryptologos.cc/logos/solana-sol-logo.png")
  ]

  const MOCK_MARKET_STATS := MarketStats(1800000000, 45378, 7245, 0.015, [
    GrowthTrend("Jan", 4000, 240, 1200),
    GrowthTrend("Feb", 5000, 300, 1600),
    GrowthTrend("Mar", 6000, 380, 2100),
    GrowthTrend("Apr", 8700, 490, 2800),
    GrowthTrend("May", 9800, 590, 3200),
    GrowthTrend("Jun", 11000, 690, 3800),
    GrowthTrend("Jul", 12000, 780, 4300),
    GrowthTrend("Aug", 14000, 880, 4800),
    GrowthTrend("Sep", 17000, 990, 5400),
    GrowthTrend("Oct", 19000, 1100, 5900),
    GrowthTrend("Nov", 21000, 1250, 6500),
    GrowthTrend("Dec", 25000, 1500, 7200)
  ])

  const DEFAULT_LIMIT := 10
  const DEFAULT_TIMEFRAME := "month"
  const HOUR := 60 * 60 * 1000
  const DAY := 24 * HOUR
  const UNKNOWN_ASSET_PRICE := 1000.0
  const MARKET_STATS_ENDPOINT := "/market/stats"
  const NEWSLETTER_ENDPOINT := "/newsletter/subscribe"

  // ---------------------------------------------------------------------------
  // Development-mode data

  /** `MOCK_ASSETS.slice(0, limit)` */
  function MockTopAssets(limit: int): (assets: seq<CryptoAsset>)
    ensures limit >= 0 ==> assets == MOCK_ASSETS[..Min(limit, |MOCK_ASSETS|)]
    ensures limit < 0 ==> assets == MOCK_ASSETS[..Max(|MOCK_ASSETS| + limit, 0)]
    ensures |assets| <= |MOCK_ASSETS|
  {
    Slice(MOCK_ASSETS, 0, limit)
  }

  /** A limit of two gives Bitcoin then Ethereum; the default limit gives all three. */
  lemma MockTopAssetsExamples()
    ensures |MockTopAssets(2)| == 2 && MockTopAssets(2)[0].id == "bitcoin" && MockTopAssets(2)[1].id == "ethereum"
    ensures MockTopAssets(DEFAULT_LIMIT) == MOCK_ASSETS
  {
  }

  /** `assets.find(a => a.id === id)`: the first asset with that id. */
  function FindAsset(assets: seq<CryptoAsset>, id: string): (r: Option<CryptoAsset>)
    ensures r.Some? ==> r.value in assets && r.value.id == id
    ensures r.None? <==> forall a :: a in assets ==> a.id != id
  {
    if assets == [] then None
    else if assets[0].id == id then Some(assets[0])
    else FindAsset(assets[1..], id)
  }

  /** The asset found is the first one with that id. */
  lemma {:induction false} FindAssetIsFirst(assets: seq<CryptoAsset>, id: string)
    requires FindAsset(assets, id).Some?
    ensures exists i :: 0 <= i < |assets| && assets[i] == FindAsset(assets, id).value &&
                        forall j :: 0 <= j < i ==> assets[j].id != id
  {
    if assets[0].id != id {
      var tail := assets[1..];
      FindAssetIsFirst(tail, id);
      var i :| 0 <= i < |tail| && tail[i] == FindAsset(tail, id).value && forall j :: 0 <= j < i ==> tail[j].id != id;
      assert assets[i + 1] == tail[i];
      forall j | 0 <= j < i + 1 ensures assets[j].id != id {
        if j > 0 {
          assert assets[j] == tail[j - 1];
        }
      }
    } else {
      assert assets[0] == FindAsset(assets, id).value;
    }
  }

  /** The mock list's ids are distinct, so a known id finds its own entry. */
  lemma FindMockAsset(i: nat)
    requires i < |MOCK_ASSETS|
    ensures FindAsset(MOCK_ASSETS, MOCK_ASSETS[i].id) == Some(MOCK_ASSETS[i])
  {
  }

  /** The price mock history starts from: the mock asset's price, else 1000. */
  function BasePrice(assetId: string): (p: real)
    ensures p > 0.0
    ensures FindAsset(MOCK_ASSETS, assetId).Some? ==> p == FindAsset(MOCK_ASSETS, assetId).value.price
    ensures FindAsset(MOCK_ASSETS, assetId).None? ==> p == UNKNOWN_ASSET_PRICE
  {
    match FindAsset(MOCK_ASSETS, assetId)
    case Some(a) => a.price
    case None => UNKNOWN_ASSET_PRICE
  }

  /** `count` points ending one `interval` before `now`. */
  ghost predicate Sampled(points: seq<PricePoint>, now: int, count: nat, interval: int) {
    |points| == count && forall i :: 0 <= i < |points| ==> points[i].timestamp == now - (count - i) * interval
  }

  /** Point i costs the base price times a factor in [0.9, 1.1) drawn from the i-th random number. */
  ghost predicate Priced(points: seq<PricePoint>, basePrice: real, random: nat -> real) {
    forall i :: 0 <= i < |points| ==> points[i].price == basePrice * (0.9 + random(i) * 0.2)
  }

  /** Mock price history: the timeframe picks the number of points and their
      spacing (day: 24 hourly; week: 7 daily; year: 12 thirty-day; anything else,
      month included: 30 daily). `random(i)` is the i-th `Math.random()`. */
  method MockHistory(now: int, assetId: string, timeframe: string, random: nat -> real)
    returns (points: seq<PricePoint>)
    ensures timeframe == "day" ==> Sampled(points, now, 24, HOUR)
    ensures timeframe == "week" ==> Sampled(points, now, 7, DAY)
    ensures timeframe == "year" ==> Sampled(points, now, 12, 30 * DAY)
    ensures timeframe != "day" && timeframe != "week" && timeframe != "year" ==> Sampled(points, now, 30, DAY)
    ensures Priced(points, BasePrice(assetId), random)
  {
    var day := 24 * 60 * 60 * 1000;
    var basePrice := BasePrice(assetId);
    var dataPoints: nat := 30;
    var interval := day;
    if timeframe == "day" {
      dataPoints := 24;
      interval := 60 * 60 * 1000;
    } else if timeframe == "week" {
      dataPoints := 7;
      interval := day;
    } else if timeframe == "year" {
      dataPoints := 12;
      interval := 30 * day;
    }
    points := Samples(now, dataPoints, interval, basePrice, random);
  }

  /** `Array(dataPoints).fill(0).map((_, i) => ...)` of the mock history. */
  function Samples(now: int, count: nat, interval: int, basePrice: real, random: nat -> real): (points: seq<PricePoint>)
    ensures Sampled(points, now, count, interval)
    ensures Priced(points, basePrice, random)
  {
    seq(count, i requires 0 <= i < count => PricePoint(now - (count - i) * interval, basePrice * (0.9 + random(i) * 0.2)))
  }

  /** Sampled points are evenly spaced and strictly ascending, all before `now`,
      the last one `interval` before it. */
  lemma SampledTimeline(points: seq<PricePoint>, now: int, count: nat, interval: int)
    requires Sampled(points, now, count, interval) && interval > 0
    ensures forall i :: 0 <= i < |points| - 1 ==> points[i + 1].timestamp == points[i].timestamp + interval
    ensures forall i, j :: 0 <= i < j < |points| ==> points[i].timestamp < points[j].timestamp
    ensures forall i :: 0 <= i < |points| ==> points[i].timestamp < now
    ensures count > 0 ==> points[count - 1].timestamp == now - interval
  {
    forall i, j | 0 <= i < j < |points| ensures points[i].timestamp < points[j].timestamp {
      MulStrictlyMonotonic(count - i, count - j, interval);
    }
    forall i | 0 <= i < |points| ensures points[i].timestamp < now {
      MulStrictlyMonotonic(count - i, 0, interval);
    }
  }

  lemma MulStrictlyMonotonic(a: int, b: int, c: int)
    requires a > b && c > 0
    ensures a * c > b * c
  {
    assert a * c - b * c == (a - b) * c;
  }

  /** With every draw of `Math.random()` in [0, 1), each priced point lies
      within 10% of the base price. */
  lemma MockPriceBounds(points: seq<PricePoint>, base: real, random: nat -> real)
    requires Priced(points, base, random) && base > 0.0
    requires forall i :: 0 <= i < |points| ==> 0.0 <= random(i) < 1.0
    ensures forall i :: 0 <= i < |points| ==> 0.9 * base <= points[i].price < 1.1 * base
  {
    forall i | 0 <= i < |points| ensures 0.9 * base <= points[i].price < 1.1 * base {
      var r := random(i);
      assert points[i].price == 0.9 * base + 0.2 * (base * r);
      assert base * r < base;
    }
  }

  // ---------------------------------------------------------------------------
  // Endpoints

  function TopAssetsEndpoint(limit: int): string {
    "/assets?limit=" + IntToString(limit)
  }

  function AssetEndpoint(assetId: string): string {
    "/assets/" + assetId
  }

  function HistoryEndpoint(assetId: string, timeframe: string): string {
    "/assets/" + assetId + "/history?timeframe=" + timeframe
  }

  /** Different limits request different URLs. */
  lemma TopAssetsEndpointInjective(a: int, b: int)
    requires TopAssetsEndpoint(a) == TopAssetsEndpoint(b)
    ensures a == b
  {
    var prefix := "/assets?limit=";
    var sa, sb := IntToString(a), IntToString(b);
    assert sa == TopAssetsEndpoint(a)[|prefix|..];
    assert sb == TopAssetsEndpoint(b)[|prefix|..];
    assert sa == sb;
  }

  // ---------------------------------------------------------------------------
  // Accessors

  /** The calls of `fetch` one `apiClient.get(endpoint)` makes, with the token
      stored when the request was built. */
  ghost predicate Got(env: Config.Env, storage: map<string, string>, endpoint: string,
                      oracle: nat -> Outcome, calls: seq<FetchCall>) {
    Repeated(calls, FetchCall(ApiBaseUrl(env) + endpoint, RequestConfigAsWritten(GET, None, NO_OPTIONS, AuthToken(storage))),
             FetchSpec(oracle).attempts)
  }

  /** The shared policy: on success the server's body is returned unchanged and
      nothing else happens; on failure the error is handled once and the neutral
      value is returned. */
  twostate predicate Downgraded<T>(b: Browser, new result: RequestResult, new served: Served<T>, new neutral: T, new message: string)
    reads b
  {
    match result
    case Success(response) => served == Remote(response.data) && unchanged(b)
    case Failure(e) => served == Local(neutral) && Handled(b, CaughtApi(e), message)
  }

  /** The `try`/`catch` around one client call: pass the data through, or report
      the error and answer with the neutral value. */
  method Downgrade<T>(b: Browser, result: RequestResult, neutral: T, message: string) returns (served: Served<T>)
    modifies b
    ensures Downgraded(b, result, served, neutral, message)
  {
    match result
    case Success(response) =>
      served := Remote(response.data);
    case Failure(e) =>
      HandleApiError(b, CaughtApi(e), message);
      served := Local(neutral);
  }

  /** One `apiClient.get(endpoint)` inside the service's `try`/`catch`. */
  twostate predicate Answered<T>(new env: Config.Env, b: Browser, new endpoint: string, new oracle: nat -> Outcome,
                                 new calls: seq<FetchCall>, new served: Served<T>, new neutral: T, new message: string)
    reads b
  {
    && Got(env, old(b.storage), endpoint, oracle, calls)
    && Downgraded(b, FetchSpec(oracle).result, served, neutral, message)
  }

  /** The body every accessor shares outside development mode. */
  method GetOrDowngrade<T>(env: Config.Env, b: Browser, endpoint: string, neutral: T, message: string,
                           oracle: nat -> Outcome)
    returns (served: Served<T>, calls: seq<FetchCall>)
    modifies b
    ensures Answered(env, b, endpoint, oracle, calls, served, neutral, message)
  {
    var result;
    result, calls := Get(env, b, endpoint, NO_OPTIONS, oracle);
    served := Downgrade(b, result, neutral, message);
  }

  /** `getTopAssets(limit = 10)` */
  method GetTopAssets(env: Config.Env, b: Browser, limit: int := DEFAULT_LIMIT, oracle: nat -> Outcome)
    returns (assets: Served<seq<CryptoAsset>>, calls: seq<FetchCall>)
    modifies b
    ensures Config.Resolve(env).isDevelopment ==> assets == Local(MockTopAssets(limit)) && calls == [] && unchanged(b)
    ensures !Config.Resolve(env).isDevelopment ==>
              Answered(env, b, TopAssetsEndpoint(limit), oracle, calls, assets, [], "Failed to fetch crypto assets")
  {
    if Config.Resolve(env).isDevelopment {
      return Local(MockTopAssets(limit)), [];
    }
    assets, calls := GetOrDowngrade(env, b, TopAssetsEndpoint(limit), [], "Failed to fetch crypto assets", oracle);
  }

  /** `getAssetDetails(assetId)`: no distinction between "not found" and "failed". */
  method GetAssetDetails(env: Config.Env, b: Browser, assetId: string, oracle: nat -> Outcome)
    returns (asset: Served<Option<CryptoAsset>>, calls: seq<FetchCall>)
    modifies b
    ensures Config.Resolve(env).isDevelopment ==> asset == Local(FindAsset(MOCK_ASSETS, assetId)) && calls == [] && unchanged(b)
    ensures !Config.Resolve(env).isDevelopment ==>
              Answered(env, b, AssetEndpoint(assetId), oracle, calls, asset, None, "Failed to fetch details for " + assetId)
  {
    if Config.Resolve(env).isDevelopment {
      return Local(FindAsset(MOCK_ASSETS, assetId)), [];
    }
    asset, calls := GetOrDowngrade(env, b, AssetEndpoint(assetId), None, "Failed to fetch details for " + assetId, oracle);
  }

  /** `getMarketStats()` */
  method GetMarketStats(env: Config.Env, b: Browser, oracle: nat -> Outcome)
    returns (stats: Served<Option<MarketStats>>, calls: seq<FetchCall>)
    modifies b
    ensures Config.Resolve(env).isDevelopment ==> stats == Local(Some(MOCK_MARKET_STATS)) && calls == [] && unchanged(b)
    ensures !Config.Resolve(env).isDevelopment ==>
              Answered(env, b, MARKET_STATS_ENDPOINT, oracle, calls, stats, None, "Failed to fetch market statistics")
  {
    if Config.Resolve(env).isDevelopment {
      return Local(Some(MOCK_MARKET_STATS)), [];
    }
    stats, calls := GetOrDowngrade(env, b, MARKET_STATS_ENDPOINT, None, "Failed to fetch market statistics", oracle);
  }

  /** `getHistoricalPrices(assetId, timeframe = "month")`; `now` is `Date.now()`. */
  method GetHistoricalPrices(env: Config.Env, b: Browser, assetId: string, timeframe: string := DEFAULT_TIMEFRAME, now: int,
                             random: nat -> real, oracle: nat -> Outcome)
    returns (history: Served<seq<PricePoint>>, calls: seq<FetchCall>)
    modifies b
    ensures Config.Resolve(env).isDevelopment ==>
              && history.Local? && calls == [] && unchanged(b)
              && (timeframe == "day" ==> Sampled(history.value, now, 24, HOUR))
              && (timeframe == "week" ==> Sampled(history.value, now, 7, DAY))
              && (timeframe == "year" ==> Sampled(history.value, now, 12, 30 * DAY))
              && (timeframe != "day" && timeframe != "week" && timeframe != "year" ==> Sampled(history.value, now, 30, DAY))
              && (forall i :: 0 <= i < |history.value| ==>
                    history.value[i].price == BasePrice(assetId) * (0.9 + random(i) * 0.2))
    ensures !Config.Resolve(env).isDevelopment ==>
              Answered(env, b, HistoryEndpoint(assetId, timeframe), oracle, calls, history, [], "Failed to fetch historical price data")
  {
    if Config.Resolve(env).isDevelopment {
      var points := MockHistory(now, assetId, timeframe, random);
      return Local(points), [];
    }
    history, calls := GetOrDowngrade(env, b, HistoryEndpoint(assetId, timeframe), [], "Failed to fetch historical price data", oracle);
  }

  function NewsletterBody(email: string): Json {
    JObj(map["email" := JStr(email)])
  }

  /** One `apiClient.post("/newsletter/subscribe", { email })` inside the
      service's `try`/`catch`: true exactly when the request succeeded. */
  twostate predicate Subscribed(new env: Config.Env, b: Browser, new email: string, new oracle: nat -> Outcome,
                                new calls: seq<FetchCall>, new subscribed: bool)
    reads b
  {
    && Repeated(calls, FetchCall(ApiBaseUrl(env) + NEWSLETTER_ENDPOINT,
                                 RequestConfigAsWritten(POST, Some(NewsletterBody(email)), NO_OPTIONS, AuthToken(old(b.storage)))),
                FetchSpec(oracle).attempts)
    && (subscribed <==> FetchSpec(oracle).result.Success?)
    && Downgraded(b, FetchSpec(oracle).result, if subscribed then Remote(FetchSpec(oracle).result.value.data) else Local(false),
                  false, "Failed to subscribe to newsletter")
  }

  /** Every attempt sends the email as the body. */
  lemma NewsletterSendsEmail(env: Config.Env, storage: map<string, string>, email: string)
    ensures var init := RequestConfigAsWritten(POST, Some(NewsletterBody(email)), NO_OPTIONS, AuthToken(storage));
            init.body == Some(JObj(map["email" := JStr(email)])) && init.httpMethod == "POST"
  {
  }

  /** `subscribeToNewsletter(email)`: true on success, false after handling the error. */
  method SubscribeToNewsletter(env: Config.Env, b: Browser, email: string, oracle: nat -> Outcome)
    returns (subscribed: bool, calls: seq<FetchCall>)
    modifies b
    ensures Config.Resolve(env).isDevelopment ==>
              && subscribed && calls == []
              && b.console == old(b.console) + [Logged(["Newsletter subscription:", email])]
              && b.storage == old(b.storage) && b.location == old(b.location) && b.toasts == old(b.toasts)
    ensures !Config.Resolve(env).isDevelopment ==> Subscribed(env, b, email, oracle, calls, subscribed)
  {
    if Config.Resolve(env).isDevelopment {
      b.console := b.console + [Logged(["Newsletter subscription:", email])];
      return true, [];
    }
    var result;
    result, calls := Post(env, b, NEWSLETTER_ENDPOINT, NewsletterBody(email), NO_OPTIONS, oracle);
    var served := Downgrade(b, result, false, "Failed to subscribe to newsletter");
    subscribed := served.Remote?;
  }
}
