/**
 * The client side of the exchange rates (lib/exchange-rates.ts): the
 * one-hour cache and fallback decision of `fetchExchangeRate`, and the
 * arithmetic and fallbacks of `convertToUSD`. A rate is the number of
 * hryvnias per unit of a currency, as the National Bank of Ukraine quotes
 * it. The cache, the clock and the answers of the rate endpoint are
 * parameters; the answer to a request is `Fetched` exactly when the response
 * was OK and carried no `error` field.
 */
module ExchangeRates {
  import opened Wrappers
  import opened Text
  import opened Calendar

  /** A quoted rate: hryvnias per unit, positive. */
  type Rate = r: real | r > 0.0 witness 1.0

  /** One hour in milliseconds, the age below which a cached rate is used without asking. */
  const CacheDuration: int := 60 * 60 * 1000

  /** A cached rate, when it was stored (milliseconds since the epoch), and the date the bank quoted. */
  datatype CacheEntry = CacheEntry(rate: Rate, timestamp: int, date: string)

  type Cache = map<string, CacheEntry>

  /** What asking the rate endpoint for one currency gave. */
  datatype RateAnswer =
    | Fetched(rate: Rate, exchangeDate: string, receivedAt: int)
    | FetchFailed

  /** `${currency}_${YYYYMMDD}`: a rate is cached per currency and day. */
  function CacheKey(currency: string, today: CalendarDate): (r: string)
    ensures |r| > |currency| && r[..|currency|] == currency && r[|currency|] == '_'
    ensures 0 <= today.year <= 9999 ==> |r| == |currency| + 9 && AllDigits(r[|currency| + 1..])
  {
    var r := currency + "_" + CompactIsoDate(today);
    assert r[..|currency|] == currency && r[|currency| + 1..] == CompactIsoDate(today);
    assert 0 <= today.year <= 9999 ==> |CompactIsoDate(today)| == 8 && AllDigits(CompactIsoDate(today)) by {
      if 0 <= today.year <= 9999 { CompactIsoDateFields(today); }
    }
    r
  }

  /** The fixed rates used when nothing better is known: EUR at 40, anything else at 1. */
  function FallbackRate(currency: string): (r: Rate)
    ensures currency == "EUR" ==> r == 40.0
    ensures currency != "EUR" ==> r == 1.0
  {
    if currency == "EUR" then 40.0 else if currency == "UAH" then 1.0 else 1.0
  }

  /** How a rate was obtained. */
  datatype Source = Base | FromCache | FromNetwork | StaleCache | Fallback

  /** The outcome of `fetchExchangeRate`: the rate, the cache afterwards, and how the rate was obtained. */
  datatype Lookup = Lookup(rate: Rate, cache: Cache, source: Source)

  /**
   * `fetchExchangeRate`: 1 for USD and UAH; a cached rate younger than an
   * hour; otherwise the endpoint's rate, which is cached; and when the
   * endpoint fails, the cached rate however old, or the fallback rate.
   * `answer` is consulted only when the endpoint is asked.
   */
  function FetchExchangeRate(currency: string, today: CalendarDate, now: int, cache: Cache, answer: RateAnswer): (r: Lookup)
    ensures currency == "USD" || currency == "UAH" ==> r == Lookup(1.0, cache, Base)
    ensures r.source == Base <==> currency == "USD" || currency == "UAH"
    ensures r.source == FromNetwork <==> r.source !in {Base, FromCache} && answer.Fetched?
    ensures r.source in {FromCache, StaleCache} ==>
      CacheKey(currency, today) in cache && r.rate == cache[CacheKey(currency, today)].rate
    ensures r.source == FromCache <==>
      currency != "USD" && currency != "UAH" && CacheKey(currency, today) in cache
      && now - cache[CacheKey(currency, today)].timestamp < CacheDuration
    ensures r.source == FromNetwork ==>
      answer.Fetched? && r.rate == answer.rate
      && r.cache == cache[CacheKey(currency, today) := CacheEntry(answer.rate, answer.receivedAt, answer.exchangeDate)]
    ensures r.source != FromNetwork ==> r.cache == cache
    ensures r.source == StaleCache <==>
      currency != "USD" && currency != "UAH" && CacheKey(currency, today) in cache
      && now - cache[CacheKey(currency, today)].timestamp >= CacheDuration && answer.FetchFailed?
    ensures r.source == Fallback <==>
      currency != "USD" && currency != "UAH" && CacheKey(currency, today) !in cache && answer.FetchFailed?
    ensures r.source == Fallback ==> r.rate == FallbackRate(currency)
  {
    if currency == "USD" || currency == "UAH" then Lookup(1.0, cache, Base)
    else
      var key := CacheKey(currency, today);
      if key in cache && now - cache[key].timestamp < CacheDuration then Lookup(cache[key].rate, cache, FromCache)
      else match answer
        case Fetched(rate, date, at) => Lookup(rate, cache[key := CacheEntry(rate, at, date)], FromNetwork)
        case FetchFailed =>
          if key in cache then Lookup(cache[key].rate, cache, StaleCache)
          else Lookup(FallbackRate(currency), cache, Fallback)
  }

  /**
   * A second lookup on the same day, less than an hour after a successful
   * fetch, is answered from the cache with the same rate, whatever the
   * endpoint would say.
   */
  lemma SecondLookupHitsCache(currency: string, today: CalendarDate, now: int, cache: Cache,
                              answer: RateAnswer, later: int, laterAnswer: RateAnswer)
    requires FetchExchangeRate(currency, today, now, cache, answer).source == FromNetwork
    requires answer.Fetched? && answer.receivedAt <= later < answer.receivedAt + CacheDuration
    ensures var first := FetchExchangeRate(currency, today, now, cache, answer);
            FetchExchangeRate(currency, today, later, first.cache, laterAnswer) == Lookup(first.rate, first.cache, FromCache)
  {
  }

  /** Rates of different currencies, or of different days, never share a cache slot. */
  lemma CacheKeysDistinct(c1: string, d1: CalendarDate, c2: string, d2: CalendarDate)
    requires 0 <= d1.year <= 9999 && 0 <= d2.year <= 9999
    requires forall i :: 0 <= i < |c1| ==> c1[i] != '_'
    requires forall i :: 0 <= i < |c2| ==> c2[i] != '_'
    requires CacheKey(c1, d1) == CacheKey(c2, d2)
    ensures c1 == c2 && d1 == d2
  {
    CompactIsoDateFields(d1);
    CompactIsoDateFields(d2);
    var k := CacheKey(c1, d1);
    assert |c1| == |c2|;
    assert c1 == k[..|c1|] == c2;
    assert CompactIsoDate(d1) == k[|c1| + 1..] == CompactIsoDate(d2);
    CompactIsoDateInjective(d1, d2);
  }

  // ---------------------------------------------------------------------------
  // Conversion to US dollars

  /**
   * `convertToUSD`: `foreign` is the endpoint's answer for `fromCurrency` and
   * `usd` its answer for USD. USD is returned as is; hryvnias are divided by
   * the dollar's rate; any other currency is taken to hryvnias at its own rate
   * and then to dollars. Should an answer the conversion needs be missing, UAH
   * is taken at 40 to the dollar, EUR at 1.18 dollars, and anything else
   * unchanged.
   */
  function ConvertToUsd(amount: real, fromCurrency: string, foreign: Option<Rate>, usd: Option<Rate>): (r: real)
    ensures fromCurrency == "USD" ==> r == amount
    ensures fromCurrency == "UAH" && usd.None? ==> r == FallbackConversion(amount, fromCurrency)
    ensures fromCurrency != "USD" && fromCurrency != "UAH" && (foreign.None? || usd.None?) ==>
      r == FallbackConversion(amount, fromCurrency)
  {
    if fromCurrency == "USD" then amount
    else if fromCurrency == "UAH" then
      if usd.Some? then amount / usd.value else FallbackConversion(amount, fromCurrency)
    else if foreign.Some? && usd.Some? then amount * foreign.value / usd.value
    else FallbackConversion(amount, fromCurrency)
  }

  /** The conversion used when the rate endpoint fails. */
  function FallbackConversion(amount: real, fromCurrency: string): (r: real)
    ensures fromCurrency == "UAH" ==> r * 40.0 == amount
    ensures fromCurrency == "EUR" ==> r == amount * 1.18
    ensures fromCurrency != "UAH" && fromCurrency != "EUR" ==> r == amount
  {
    if fromCurrency == "UAH" then amount / 40.0
    else if fromCurrency == "EUR" then amount * 1.18
    else amount
  }

  /** With the answers it needs, the conversion goes through hryvnias: times the own rate, over the dollar's rate. */
  lemma ConvertWithRates(amount: real, fromCurrency: string, foreign: Option<Rate>, usd: Rate)
    ensures fromCurrency == "UAH" ==> ConvertToUsd(amount, fromCurrency, foreign, Some(usd)) * usd == amount
    ensures fromCurrency != "USD" && fromCurrency != "UAH" && foreign.Some? ==>
      ConvertToUsd(amount, fromCurrency, foreign, Some(usd)) * usd == amount * foreign.value
  {
  }

  /** Whatever the answers, converting a sum is summing the conversions. */
  lemma ConvertIsAdditive(a: real, b: real, fromCurrency: string, foreign: Option<Rate>, usd: Option<Rate>)
    ensures ConvertToUsd(a + b, fromCurrency, foreign, usd)
         == ConvertToUsd(a, fromCurrency, foreign, usd) + ConvertToUsd(b, fromCurrency, foreign, usd)
  {
    if fromCurrency == "USD" {
    } else if fromCurrency == "UAH" && usd.Some? {
      HryvniaIsAdditive(a, b, foreign, usd.value);
    } else if fromCurrency != "UAH" && foreign.Some? && usd.Some? {
      ForeignIsAdditive(a, b, fromCurrency, foreign.value, usd.value);
    } else {
      FallbackIsAdditive(a, b, fromCurrency);
    }
  }

  lemma HryvniaIsAdditive(a: real, b: real, foreign: Option<Rate>, usd: Rate)
    ensures ConvertToUsd(a + b, "UAH", foreign, Some(usd))
         == ConvertToUsd(a, "UAH", foreign, Some(usd)) + ConvertToUsd(b, "UAH", foreign, Some(usd))
  {
    DivisionDistributes(a, b, usd);
  }

  lemma ForeignIsAdditive(a: real, b: real, fromCurrency: string, foreign: Rate, usd: Rate)
    requires fromCurrency != "USD" && fromCurrency != "UAH"
    ensures ConvertToUsd(a + b, fromCurrency, Some(foreign), Some(usd))
         == ConvertToUsd(a, fromCurrency, Some(foreign), Some(usd)) + ConvertToUsd(b, fromCurrency, Some(foreign), Some(usd))
  {
    assert ConvertToUsd(a + b, fromCurrency, Some(foreign), Some(usd)) == (a + b) * foreign / usd;
    assert ConvertToUsd(a, fromCurrency, Some(foreign), Some(usd)) == a * foreign / usd;
    assert ConvertToUsd(b, fromCurrency, Some(foreign), Some(usd)) == b * foreign / usd;
    ScaledDivisionDistributes(a, b, foreign, usd);
  }

  /** Converting a negated amount negates the conversion, so a charge converts as its amount does. */
  lemma ConvertOfNegation(a: real, fromCurrency: string, foreign: Option<Rate>, usd: Option<Rate>)
    ensures ConvertToUsd(-a, fromCurrency, foreign, usd) == -ConvertToUsd(a, fromCurrency, foreign, usd)
  {
    ConvertIsAdditive(a, -a, fromCurrency, foreign, usd);
  }

  lemma FallbackIsAdditive(a: real, b: real, fromCurrency: string)
    ensures FallbackConversion(a + b, fromCurrency) == FallbackConversion(a, fromCurrency) + FallbackConversion(b, fromCurrency)
  {
    if fromCurrency == "UAH" {
      DivisionDistributes(a, b, 40.0);
    }
  }

  lemma DivisionDistributes(x: real, y: real, d: real)
    requires d != 0.0
    ensures (x + y) / d == x / d + y / d
  {
  }

  lemma ScaledDivisionDistributes(x: real, y: real, f: real, d: real)
    requires d != 0.0
    ensures (x + y) * f / d == x * f / d + y * f / d
  {
    assert (x + y) * f == x * f + y * f;
    DivisionDistributes(x * f, y * f, d);
  }

  /** With both answers in hand, a foreign amount converts as its hryvnia value does. */
  lemma ConvertThroughHryvnia(amount: real, fromCurrency: string, foreign: Rate, usd: Option<Rate>, other: Option<Rate>)
    requires fromCurrency != "USD" && fromCurrency != "UAH" && usd.Some?
    ensures ConvertToUsd(amount, fromCurrency, Some(foreign), usd) == ConvertToUsd(amount * foreign, "UAH", other, usd)
  {
  }

  /** Converting hryvnias at the dollar's rate and back gives the amount again. */
  lemma HryvniaRoundTrip(amount: real, usd: Rate, other: Option<Rate>)
    ensures ConvertToUsd(amount, "UAH", other, Some(usd)) * usd == amount
  {
  }

  /**
   * The two fallback tables of the module do not agree on the euro: taken at
   * the rate table's fixed rates (40 hryvnias to the euro, and 1 for the
   * dollar, which the table does not list), any non-zero euro amount converts
   * to 40 times itself, while the conversion fallback makes it 1.18 times
   * itself.
   */
  lemma FallbackTablesDisagreeOnEuro(amount: real)
    requires amount != 0.0
    ensures ConvertToUsd(amount, "EUR", Some(FallbackRate("EUR")), Some(FallbackRate("USD"))) == amount * 40.0
    ensures ConvertToUsd(amount, "EUR", Some(FallbackRate("EUR")), Some(FallbackRate("USD"))) != FallbackConversion(amount, "EUR")
  {
    assert FallbackConversion(amount, "EUR") == amount * 1.18;
  }
}
