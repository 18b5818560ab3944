/**
 * The server route app/api/nbu-rate/route.ts: it validates the `valcode`
 * query parameter, asks the National Bank of Ukraine's statistics service for
 * that currency's rate on the current Kyiv day, and classifies the outcome
 * into a JSON response. The bank's answer and the Kyiv calendar day are
 * parameters.
 */
module NbuRoute {
  import opened Wrappers
  import opened Text
  import opened Calendar
  import opened ExchangeRates

  // ---------------------------------------------------------------------------
  // Query validation

  const MissingCode := "Expected string, received null"
  const WrongLength := "Currency code must be exactly 3 letters"
  const NotUppercase := "Currency code must be 3 uppercase letters"

  predicate IsUpperLetter(c: char) { 'A' <= c <= 'Z' }

  /** A code the schema accepts: exactly three capital letters A to Z. */
  predicate IsCurrencyCode(s: string)
  {
    |s| == 3 && forall i :: 0 <= i < |s| ==> IsUpperLetter(s[i])
  }

  /**
   * The query schema: the accepted code, or the first issue the schema
   * reports. A missing parameter is not a string; a string is checked for its
   * length before its letters, and the length issue comes first when both fail.
   */
  function ValidateValcode(valcode: Option<string>): (r: Result<string, string>)
    ensures r.Ok? <==> valcode.Some? && IsCurrencyCode(valcode.value)
    ensures r.Ok? ==> r.value == valcode.value
    ensures valcode.None? ==> r == Err(MissingCode)
    ensures valcode.Some? && |valcode.value| != 3 ==> r == Err(WrongLength)
    ensures valcode.Some? && |valcode.value| == 3 && !IsCurrencyCode(valcode.value) ==> r == Err(NotUppercase)
  {
    match valcode
    case None => Err(MissingCode)
    case Some(s) =>
      if |s| != 3 then Err(WrongLength)
      else if !(forall i :: 0 <= i < |s| ==> IsUpperLetter(s[i])) then Err(NotUppercase)
      else Ok(s)
  }

  // ---------------------------------------------------------------------------
  // The date stamp

  /** `getKyivDate`: the year as `String` renders it, then the month and day zero-padded to two digits. */
  function DateStamp(d: CalendarDate): (r: string)
    ensures |r| >= 5 && AllDigits(r[|r| - 4..])
    ensures DigitsValue(r[|r| - 4..|r| - 2]) == d.month && DigitsValue(r[|r| - 2..]) == d.day
    ensures 0 <= d.year ==> AllDigits(r[..|r| - 4]) && DigitsValue(r[..|r| - 4]) == d.year
  {
    var y, m, dd := IntToString(d.year), ZeroPad(d.month, 2), ZeroPad(d.day, 2);
    PadTwo(d.month);
    PadTwo(d.day);
    assert 0 <= d.year ==> DigitsValue(y) == d.year by {
      if 0 <= d.year { NatToStringValue(d.year); }
    }
    StampParts(y, m, dd);
    y + m + dd
  }

  /** A year text followed by two two-digit fields splits back into its parts. */
  lemma StampParts(y: string, m: string, dd: string)
    requires |y| >= 1 && |m| == 2 && |dd| == 2 && AllDigits(m) && AllDigits(dd)
    ensures var r := y + m + dd;
            && |r| == |y| + 4 && r[..|r| - 4] == y && r[|r| - 4..|r| - 2] == m && r[|r| - 2..] == dd
            && AllDigits(r[|r| - 4..])
  {
    var r := y + m + dd;
    assert r[..|r| - 4] == y && r[|r| - 4..|r| - 2] == m && r[|r| - 2..] == dd;
    assert r[|r| - 4..] == m + dd;
  }

  /** For four-digit years the stamp is the eight-character `YYYYMMDD` the bank expects, with a 1-based month. */
  lemma DateStampOfFourDigitYear(d: CalendarDate)
    requires 1000 <= d.year <= 9999
    ensures DateStamp(d) == CompactIsoDate(d)
    ensures var s := DateStamp(d);
            |s| == 8 && AllDigits(s)
            && DigitsValue(s[..4]) == d.year && DigitsValue(s[4..6]) == d.month && DigitsValue(s[6..]) == d.day
  {
    Pow10Values();
    NatToStringLength(d.year, 4);
    assert |NatToString(d.year)| == 4;
    assert ZeroPad(d.year, 4) == NatToString(d.year);
    CompactIsoDateFields(d);
  }

  /** Years before 1000 are not padded, so their stamp is shorter than eight characters. */
  lemma DateStampOfEarlyYear(d: CalendarDate)
    requires 0 <= d.year < 1000
    ensures |DateStamp(d)| < 8
  {
    Pow10Values();
    assert Pow10(3) == 1000;
    NatToStringLength(d.year, 3);
    PadTwo(d.month);
    PadTwo(d.day);
  }

  const NbuEndpoint := "https://bank.gov.ua/NBUStatService/v1/statdirectory/exchange"

  /** The bank's request for a validated code on a stamped day. */
  function NbuUrl(code: string, stamp: string): (r: string)
    ensures |r| == |NbuEndpoint| + |"?valcode="| + |code| + |"&date="| + |stamp| + |"&json"|
    ensures r[..|NbuEndpoint|] == NbuEndpoint
    ensures r[|NbuEndpoint|..|NbuEndpoint| + 9] == "?valcode="
    ensures r[|NbuEndpoint| + 9..|NbuEndpoint| + 9 + |code|] == code
    ensures r[|NbuEndpoint| + 9 + |code|..|r| - 5 - |stamp|] == "&date="
    ensures r[|r| - 5 - |stamp|..|r| - 5] == stamp
    ensures r[|r| - 5..] == "&json"
  {
    var r := NbuEndpoint + "?valcode=" + code + "&date=" + stamp + "&json";
    assert r[..|NbuEndpoint|] == NbuEndpoint;
    assert r[|NbuEndpoint|..|NbuEndpoint| + 9] == "?valcode=";
    assert r[|NbuEndpoint| + 9..|NbuEndpoint| + 9 + |code|] == code;
    assert r[|NbuEndpoint| + 9 + |code|..|r| - 5 - |stamp|] == "&date=";
    assert r[|r| - 5 - |stamp|..|r| - 5] == stamp;
    assert r[|r| - 5..] == "&json";
    r
  }

  /** Requests for three-letter codes on eight-character days name their code and day. */
  lemma NbuUrlInjective(c1: string, s1: string, c2: string, s2: string)
    requires |c1| == |c2| == 3 && |s1| == |s2| == 8
    requires NbuUrl(c1, s1) == NbuUrl(c2, s2)
    ensures c1 == c2 && s1 == s2
  {
  }

  // ---------------------------------------------------------------------------
  // Classifying the bank's answer

  /** One element of the bank's JSON array. */
  datatype NbuRecord = NbuRecord(r030: int, txt: string, rate: Rate, cc: string, exchangedate: string)

  /** What the bank's body parses to. */
  datatype Payload = Records(records: seq<NbuRecord>) | NotAnArray | Unparseable

  /** What the request to the bank produced: a thrown error, or a response with its `ok` flag and body. */
  datatype Upstream = Unreachable | Answered(ok: bool, payload: Payload)

  datatype Body = ErrorBody(error: string) | RateBody(cc: string, rate: Rate, exchangedate: string)

  datatype Response = Response(status: int, body: Body)

  /** The route's response, and the bank URL it requested if it got that far. */
  datatype Handling = Handling(response: Response, requested: Option<string>)

  const Unavailable := "NBU unavailable"
  const NotFound := "Currency not found or no data available"

  /** `GET`. */
  function Get(valcode: Option<string>, kyivToday: CalendarDate, upstream: Upstream): (r: Handling)
    ensures r.response.status in {200, 400, 404, 502}
    ensures r.response.status == 400 <==> ValidateValcode(valcode).Err?
    ensures r.response.status == 400 ==> r.response.body == ErrorBody(ValidateValcode(valcode).error) && r.requested == None
    ensures r.response.status != 400 ==> r.requested == Some(NbuUrl(valcode.value, DateStamp(kyivToday)))
    ensures r.response.status == 502 <==>
      ValidateValcode(valcode).Ok? && (upstream.Unreachable? || !upstream.ok || upstream.payload.Unparseable?)
    ensures r.response.status == 502 ==> r.response.body == ErrorBody(Unavailable)
    ensures r.response.status == 404 <==>
      ValidateValcode(valcode).Ok? && upstream.Answered? && upstream.ok
      && (upstream.payload.NotAnArray? || upstream.payload == Records([]))
    ensures r.response.status == 404 ==> r.response.body == ErrorBody(NotFound)
    ensures r.response.status == 200 ==>
      upstream.Answered? && upstream.payload.Records? && |upstream.payload.records| > 0
      && var first := upstream.payload.records[0];
         r.response.body == RateBody(first.cc, first.rate, first.exchangedate)
  {
    match ValidateValcode(valcode)
    case Err(message) => Handling(Response(400, ErrorBody(message)), None)
    case Ok(code) =>
      var url := NbuUrl(code, DateStamp(kyivToday));
      Handling(Classify(upstream), Some(url))
  }

  /** The status and body for the bank's answer to a valid request. */
  function Classify(upstream: Upstream): (r: Response)
    ensures r.status == 502 <==> upstream.Unreachable? || !upstream.ok || upstream.payload.Unparseable?
    ensures r.status == 200 <==> upstream.Answered? && upstream.ok && upstream.payload.Records? && |upstream.payload.records| > 0
  {
    match upstream
    case Unreachable => Response(502, ErrorBody(Unavailable))
    case Answered(ok, payload) =>
      if !ok then Response(502, ErrorBody(Unavailable))
      else match payload
        case Unparseable => Response(502, ErrorBody(Unavailable))
        case NotAnArray => Response(404, ErrorBody(NotFound))
        case Records(records) =>
          if |records| == 0 then Response(404, ErrorBody(NotFound))
          else Response(200, RateBody(records[0].cc, records[0].rate, records[0].exchangedate))
  }

  // ---------------------------------------------------------------------------
  // What the client makes of it

  /**
   * How `fetchExchangeRate` reads the route's response: a rate when the
   * response is OK and carries no `error`, a failure otherwise.
   */
  function ClientAnswer(response: Response, receivedAt: int): (r: RateAnswer)
    ensures r.Fetched? <==> 200 <= response.status < 300 && response.body.RateBody?
    ensures r.Fetched? ==> r.rate == response.body.rate && r.exchangeDate == response.body.exchangedate
    ensures response.body.ErrorBody? ==> r == FetchFailed
  {
    if 200 <= response.status < 300 && response.body.RateBody? then
      Fetched(response.body.rate, response.body.exchangedate, receivedAt)
    else FetchFailed
  }

  /**
   * The client obtains a rate exactly when the code is valid and the bank
   * answered OK with a non-empty list, and the rate it obtains is that of the
   * list's first record.
   */
  lemma ClientRateIffBankListsCurrency(valcode: Option<string>, kyivToday: CalendarDate, upstream: Upstream, receivedAt: int)
    ensures var answer := ClientAnswer(Get(valcode, kyivToday, upstream).response, receivedAt);
            && (answer.Fetched? <==>
                 ValidateValcode(valcode).Ok? && upstream.Answered? && upstream.ok
                 && upstream.payload.Records? && |upstream.payload.records| > 0)
            && (answer.Fetched? ==> answer.rate == upstream.payload.records[0].rate)
  {
  }

  /**
   * The client writes the code into its query string unencoded, so the route
   * reads the code itself only when it holds none of the characters a URL
   * gives a meaning to (`#` starts a fragment, `&` another parameter, `%` an
   * escape and `+` a space) and none the URL parser drops: tab, line feed and
   * carriage return anywhere, and control characters or spaces at the end of
   * the URL, where the code stands.
   */
  predicate ReachesRouteUnchanged(code: string)
  {
    && (forall i :: 0 <= i < |code| ==> code[i] !in {'#', '&', '%', '+', '\t', '\n', '\r'})
    && (|code| > 0 ==> code[|code| - 1] > ' ')
  }

  /**
   * A currency the application stores in a form the schema rejects (a
   * lower-case code, say) and that reaches the route unchanged is never
   * looked up at the bank: the client falls back to its cache or its fixed
   * rates.
   */
  lemma InvalidCodeFallsBack(currency: string, today: CalendarDate, kyivToday: CalendarDate, now: int,
                             cache: Cache, upstream: Upstream, receivedAt: int)
    requires !IsCurrencyCode(currency) && currency != "USD" && currency != "UAH"
    requires ReachesRouteUnchanged(currency)
    requires CacheKey(currency, today) !in cache
    ensures var answer := ClientAnswer(Get(Some(currency), kyivToday, upstream).response, receivedAt);
            FetchExchangeRate(currency, today, now, cache, answer) == Lookup(FallbackRate(currency), cache, Fallback)
  {
  }
}
