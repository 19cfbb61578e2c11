/** The price lookups of lib/pearls/coingecko.ts: cache-first reads of the
    price_cache table, falling back to the CoinGecko API and writing what it
    returns. The API is an oracle from requests to outcomes; the body of an
    outcome is the price field the code reads (None when it is missing). */
module Coingecko {
  import opened Wrappers
  import opened Dates
  import opened Records
  import opened Ledger
  import opened Currencies

  const CoingeckoBase: string := "https://api.coingecko.com/api/v3"

  /** TOKEN_IDS: the CoinGecko coin of each supported native token. */
  function CoinId(token: string): (id: Option<string>)
    ensures id.Some? <==> token == "POL" || token == "ETH"
    ensures token == "POL" ==> id == Some("matic-network")
    ensures token == "ETH" ==> id == Some("ethereum")
  {
    if token == "POL" then Some("matic-network")
    else if token == "ETH" then Some("ethereum")
    else None
  }

  /** getHeaders: the demo API key header only when COINGECKO_API_KEY is set and non-empty. */
  function Headers(apiKey: Option<string>): (h: seq<(string, string)>)
    ensures ("Accept", "application/json") in h
    ensures (exists v :: ("x-cg-demo-api-key", v) in h) <==> apiKey.Some? && apiKey.value != ""
  {
    if apiKey.Some? && apiKey.value != "" then [("x-cg-demo-api-key", apiKey.value), ("Accept", "application/json")]
    else [("Accept", "application/json")]
  }

  function HistoryRequest(coinId: string, providerDate: string, apiKey: Option<string>): HttpRequest {
    HttpRequest(CoingeckoBase + "/coins/" + coinId + "/history", [("date", providerDate), ("localization", "false")], Headers(apiKey))
  }

  function SimplePriceRequest(coinId: string, apiKey: Option<string>): HttpRequest {
    HttpRequest(CoingeckoBase + "/simple/price", [("ids", coinId), ("vs_currencies", "usd")], Headers(apiKey))
  }

  function FiatRequest(apiKey: Option<string>): HttpRequest {
    HttpRequest(CoingeckoBase + "/simple/price", [("ids", "usd-coin"), ("vs_currencies", "eur,gbp,cad")], Headers(apiKey))
  }

  /** Why a lookup throws. */
  datatype PriceError = UnknownToken | ApiError(status: int) | NoPriceData | NetworkError

  /** The price_cache key of a lookup: the token and the UTC date. */
  function CacheKey(token: string, at: Moment): PriceKey
    requires ValidMoment(at)
  {
    PriceKey(token, IsoDate(at.utc))
  }

  /** What a provider answer turns into: a price to cache, or an error. */
  function ReadAnswer(answer: HttpOutcome<Option<real>>): (r: Result<real, PriceError>)
    ensures r.Ok? <==> answer.IsOk() && answer.body.Some?
    ensures r.Ok? ==> r.value == answer.body.value
  {
    if answer.NetworkFailure? then Err(NetworkError)
    else if !answer.IsOk() then Err(ApiError(answer.status))
    else if answer.body.None? then Err(NoPriceData)
    else Ok(answer.body.value)
  }

  /** The price a caller keeps: the value, or nothing when the lookup threw
      (the callers catch and leave usd_value null). */
  function PriceOf(r: Result<real, PriceError>): (p: Option<real>)
    ensures p.Some? <==> r.Ok?
  {
    if r.Ok? then Some(r.value) else None
  }

  /** Cache-first lookup shared by getTokenPrice and getTodayPrice: the result
      and the price_cache table afterwards. `request` is the provider request
      for the token's coin id. */
  function CachedLookup(prices: map<PriceKey, real>, key: PriceKey,
                        request: string -> HttpRequest, fetch: HttpRequest -> HttpOutcome<Option<real>>): (Result<real, PriceError>, map<PriceKey, real>)
  {
    if key in prices then (Ok(prices[key]), prices)
    else match CoinId(key.token)
      case None => (Err(UnknownToken), prices)
      case Some(id) =>
        var r := ReadAnswer(fetch(request(id)));
        if r.Ok? then (r, UpsertPrice(prices, key, r.value)) else (r, prices)
  }

  /** getTokenPrice's result and table: keyed by the UTC date, asking the
      provider for the local date as dd-mm-yyyy. */
  function TokenPrice(prices: map<PriceKey, real>, token: string, at: Moment, apiKey: Option<string>,
                      fetch: HttpRequest -> HttpOutcome<Option<real>>): (Result<real, PriceError>, map<PriceKey, real>)
    requires ValidMoment(at)
  {
    CachedLookup(prices, CacheKey(token, at), id => HistoryRequest(id, HistoryDate(at.local), apiKey), fetch)
  }

  /** getTodayPrice's result and table: keyed by today's UTC date, asking for the current price. */
  function TodayPrice(prices: map<PriceKey, real>, token: string, now: Moment, apiKey: Option<string>,
                      fetch: HttpRequest -> HttpOutcome<Option<real>>): (Result<real, PriceError>, map<PriceKey, real>)
    requires ValidMoment(now)
  {
    CachedLookup(prices, CacheKey(token, now), id => SimplePriceRequest(id, apiKey), fetch)
  }

  /** getTokenPrice. */
  method GetTokenPrice(db: Database, token: string, at: Moment, apiKey: Option<string>,
                       fetch: HttpRequest -> HttpOutcome<Option<real>>) returns (r: Result<real, PriceError>)
    requires ValidMoment(at)
    modifies db
    ensures r == TokenPrice(old(db.prices), token, at, apiKey, fetch).0
    ensures db.State() == old(db.State()).(prices := TokenPrice(old(db.prices), token, at, apiKey, fetch).1)
  {
    var key := CacheKey(token, at);
    if key in db.prices {
      return Ok(db.prices[key]);
    }
    var id := CoinId(token);
    if id.None? {
      return Err(UnknownToken);
    }
    var providerDate := HistoryDate(at.local);
    var answer := fetch(HistoryRequest(id.value, providerDate, apiKey));
    r := ReadAnswer(answer);
    if r.Ok? {
      db.UpsertPriceRow(key, r.value);
    }
  }

  /** getTodayPrice. */
  method GetTodayPrice(db: Database, token: string, now: Moment, apiKey: Option<string>,
                       fetch: HttpRequest -> HttpOutcome<Option<real>>) returns (r: Result<real, PriceError>)
    requires ValidMoment(now)
    modifies db
    ensures r == TodayPrice(old(db.prices), token, now, apiKey, fetch).0
    ensures db.State() == old(db.State()).(prices := TodayPrice(old(db.prices), token, now, apiKey, fetch).1)
  {
    var key := CacheKey(token, now);
    if key in db.prices {
      return Ok(db.prices[key]);
    }
    var id := CoinId(token);
    if id.None? {
      return Err(UnknownToken);
    }
    var answer := fetch(SimplePriceRequest(id.value, apiKey));
    r := ReadAnswer(answer);
    if r.Ok? {
      db.UpsertPriceRow(key, r.value);
    }
  }

  // ---------------------------------------------------------------------------
  // What the cache promises
  // ---------------------------------------------------------------------------

  /** A cached (token, UTC date) is answered from the table, whatever the
      provider would say, and nothing is written. */
  lemma CacheHit(prices: map<PriceKey, real>, token: string, at: Moment, apiKey: Option<string>,
                 fetch: HttpRequest -> HttpOutcome<Option<real>>, other: HttpRequest -> HttpOutcome<Option<real>>)
    requires ValidMoment(at) && CacheKey(token, at) in prices
    ensures TokenPrice(prices, token, at, apiKey, fetch) == (Ok(prices[CacheKey(token, at)]), prices)
    ensures TokenPrice(prices, token, at, apiKey, fetch) == TokenPrice(prices, token, at, apiKey, other)
  {
  }

  /** On a miss, a token other than POL and ETH throws. */
  lemma UnknownTokenThrows(prices: map<PriceKey, real>, token: string, at: Moment, apiKey: Option<string>,
                           fetch: HttpRequest -> HttpOutcome<Option<real>>)
    requires ValidMoment(at) && CacheKey(token, at) !in prices
    requires token != "POL" && token != "ETH"
    ensures TokenPrice(prices, token, at, apiKey, fetch) == (Err(UnknownToken), prices)
  {
  }

  /** A lookup that throws leaves price_cache as it was; one that succeeds
      changes at most its own key, which then holds the returned price, so
      the same lookup repeated is a cache hit with the same price. */
  lemma LookupOutcome(prices: map<PriceKey, real>, key: PriceKey,
                      request: string -> HttpRequest, fetch: HttpRequest -> HttpOutcome<Option<real>>)
    ensures var (r, after) := CachedLookup(prices, key, request, fetch);
      && (r.Err? ==> after == prices)
      && (r.Ok? ==> key in after && after[key] == r.value)
      && (forall k :: k != key ==> (k in after <==> k in prices) && (k in prices ==> after[k] == prices[k]))
      && (r.Ok? ==> CachedLookup(after, key, request, fetch) == (r, after))
  {
  }

  /** A fresh fetch asks for the local date, written dd-mm-yyyy with the day
      and month as two digits, while the cache key is the UTC date; for
      non-negative years the provider date reads back as the local date. */
  lemma ProviderRequestDate(prices: map<PriceKey, real>, token: string, at: Moment, apiKey: Option<string>,
                            fetch: HttpRequest -> HttpOutcome<Option<real>>)
    requires ValidMoment(at) && at.local.year >= 0
    requires CacheKey(token, at) !in prices && CoinId(token).Some?
    ensures var request := HistoryRequest(CoinId(token).value, HistoryDate(at.local), apiKey);
      && TokenPrice(prices, token, at, apiKey, fetch).0 == ReadAnswer(fetch(request))
      && request.query[0].0 == "date"
      && ReadHistoryDate(request.query[0].1) == Some(at.local)
      && request.query[0].1[2] == '-' && request.query[0].1[5] == '-'
  {
    HistoryDateRoundTrip(at.local);
  }

  // ---------------------------------------------------------------------------
  // getFiatRates
  // ---------------------------------------------------------------------------

  /** The rates the provider reports for one USD Coin (`data['usd-coin']`). */
  datatype FiatQuote = FiatQuote(eur: Option<real>, gbp: Option<real>, cad: Option<real>)

  const FiatTokens: seq<string> := ["EUR", "GBP", "CAD"]

  /** The rates written when the provider answers: a missing rate defaults
      to 0.92, 0.79 and 1.36. */
  function QuoteRates(q: FiatQuote): (r: Rates)
    ensures q.eur.None? ==> r.eur == 0.92
    ensures q.gbp.None? ==> r.gbp == 0.79
    ensures q.cad.None? ==> r.cad == 1.36
    ensures q.eur.Some? ==> r.eur == q.eur.value
    ensures q.gbp.Some? ==> r.gbp == q.gbp.value
    ensures q.cad.Some? ==> r.cad == q.cad.value
  {
    Rates(q.eur.GetOr(0.92), q.gbp.GetOr(0.79), q.cad.GetOr(1.36))
  }

  function RateFor(r: Rates, token: string): real {
    if token == "EUR" then r.eur else if token == "GBP" then r.gbp else r.cad
  }

  /** getFiatRates' result and table. The cache serves only when all three
      rows exist for today (the query returns exactly three rows). */
  function FiatRates(prices: map<PriceKey, real>, today: string, apiKey: Option<string>,
                     fetch: HttpRequest -> HttpOutcome<FiatQuote>): (Result<Rates, PriceError>, map<PriceKey, real>)
  {
    var eur, gbp, cad := PriceKey("EUR", today), PriceKey("GBP", today), PriceKey("CAD", today);
    if eur in prices && gbp in prices && cad in prices then
      (Ok(Rates(prices[eur], prices[gbp], prices[cad])), prices)
    else
      var answer := fetch(FiatRequest(apiKey));
      if answer.NetworkFailure? then (Err(NetworkError), prices)
      else if !answer.IsOk() then (Err(ApiError(answer.status)), prices)
      else
        var rates := QuoteRates(answer.body);
        (Ok(rates), prices[eur := rates.eur][gbp := rates.gbp][cad := rates.cad])
  }

  /** getFiatRates: the cache query, then the provider call and one upsert per currency. */
  method GetFiatRates(db: Database, today: string, apiKey: Option<string>,
                      fetch: HttpRequest -> HttpOutcome<FiatQuote>) returns (r: Result<Rates, PriceError>)
    modifies db
    ensures r == FiatRates(old(db.prices), today, apiKey, fetch).0
    ensures db.State() == old(db.State()).(prices := FiatRates(old(db.prices), today, apiKey, fetch).1)
  {
    var cachedCount, cached := CachedRates(db.prices, today);
    ThreeRowsCached(db.prices, today);
    if cachedCount == 3 {
      assert RateFor(cached, FiatTokens[0]) == cached.eur;
      assert RateFor(cached, FiatTokens[1]) == cached.gbp;
      assert RateFor(cached, FiatTokens[2]) == cached.cad;
      return Ok(cached);
    }
    var answer := fetch(FiatRequest(apiKey));
    if answer.NetworkFailure? {
      return Err(NetworkError);
    }
    if !answer.IsOk() {
      return Err(ApiError(answer.status));
    }
    var rates := QuoteRates(answer.body);
    WriteRates(db, today, rates);
    assert WrittenRates(old(db.prices), today, rates, 1) == old(db.prices)[PriceKey("EUR", today) := rates.eur];
    assert WrittenRates(old(db.prices), today, rates, 2) == WrittenRates(old(db.prices), today, rates, 1)[PriceKey("GBP", today) := rates.gbp];
    r := Ok(rates);
  }

  /** The cache query's rows for today: how many of the three currencies
      have one, and a rate taken from each row found. */
  method CachedRates(prices: map<PriceKey, real>, today: string) returns (count: nat, cached: Rates)
    ensures count == |set j | 0 <= j < 3 && PriceKey(FiatTokens[j], today) in prices|
    ensures forall j :: 0 <= j < 3 && PriceKey(FiatTokens[j], today) in prices ==>
      RateFor(cached, FiatTokens[j]) == prices[PriceKey(FiatTokens[j], today)]
  {
    count := 0;
    cached := Rates(0.0, 0.0, 0.0);
    for i := 0 to |FiatTokens|
      invariant count == |set j | 0 <= j < i && PriceKey(FiatTokens[j], today) in prices|
      invariant forall j :: 0 <= j < i && PriceKey(FiatTokens[j], today) in prices ==>
        RateFor(cached, FiatTokens[j]) == prices[PriceKey(FiatTokens[j], today)]
    {
      var key := PriceKey(FiatTokens[i], today);
      CachedStep(prices, today, i);
      if key in prices {
        var p := prices[key];
        cached := if i == 0 then cached.(eur := p) else if i == 1 then cached.(gbp := p) else cached.(cad := p);
      }
      count := count + (if key in prices then 1 else 0);
    }
  }

  lemma CachedStep(prices: map<PriceKey, real>, today: string, i: nat)
    requires i < |FiatTokens|
    ensures (set j | 0 <= j < i + 1 && PriceKey(FiatTokens[j], today) in prices)
      == (set j | 0 <= j < i && PriceKey(FiatTokens[j], today) in prices)
         + (if PriceKey(FiatTokens[i], today) in prices then {i} else {})
  {
  }

  /** The three upserts of today's rates, EUR then GBP then CAD. */
  method WriteRates(db: Database, today: string, rates: Rates)
    modifies db
    ensures db.State() == old(db.State()).(prices := WrittenRates(old(db.prices), today, rates, |FiatTokens|))
  {
    for i := 0 to |FiatTokens|
      invariant db.State() == old(db.State()).(prices := WrittenRates(old(db.prices), today, rates, i))
    {
      db.UpsertPriceRow(PriceKey(FiatTokens[i], today), RateFor(rates, FiatTokens[i]));
    }
  }

  /** The table after the first n of the three rate upserts. */
  function WrittenRates(prices: map<PriceKey, real>, today: string, rates: Rates, n: nat): map<PriceKey, real>
    requires n <= |FiatTokens|
  {
    if n == 0 then prices
    else WrittenRates(prices, today, rates, n - 1)[PriceKey(FiatTokens[n - 1], today) := RateFor(rates, FiatTokens[n - 1])]
  }

  /** Exactly three cached rows means each currency has its row for today. */
  lemma ThreeRowsCached(prices: map<PriceKey, real>, today: string)
    ensures |set j | 0 <= j < 3 && PriceKey(FiatTokens[j], today) in prices| == 3
      <==> PriceKey("EUR", today) in prices && PriceKey("GBP", today) in prices && PriceKey("CAD", today) in prices
  {
    var s := set j | 0 <= j < 3 && PriceKey(FiatTokens[j], today) in prices;
    assert s <= {0, 1, 2};
    if |s| == 3 {
      if 0 !in s { assert s <= {1, 2}; SubsetSize(s, {1, 2}); }
      if 1 !in s { assert s <= {0, 2}; SubsetSize(s, {0, 2}); }
      if 2 !in s { assert s <= {0, 1}; SubsetSize(s, {0, 1}); }
    }
    if PriceKey("EUR", today) in prices && PriceKey("GBP", today) in prices && PriceKey("CAD", today) in prices {
      assert s == {0, 1, 2};
    }
  }

  lemma SubsetSize(a: set<int>, b: set<int>)
    requires a <= b
    ensures |a| <= |b|
  {
    assert b == a + (b - a);
  }

  /** After a successful fetch all three rates are cached for today, so the
      next call is served from the cache and returns the same rates. */
  lemma FiatRatesCached(prices: map<PriceKey, real>, today: string, apiKey: Option<string>,
                        fetch: HttpRequest -> HttpOutcome<FiatQuote>, other: HttpRequest -> HttpOutcome<FiatQuote>)
    ensures var (r, after) := FiatRates(prices, today, apiKey, fetch);
      && (r.Err? ==> after == prices)
      && (r.Ok? ==> FiatRates(after, today, apiKey, other) == (r, after))
  {
  }
}
