/**
 * The provider adapter for currencyapi.com as pure definitions: the four
 * provider-agnostic requests, the adapter's configuration, the query and URL
 * each request yields, the cache-then-fetch step, the reading of the
 * provider's JSON, and one whole `send` as a function of the cache it starts
 * from. The class in module Service runs these steps imperatively.
 */
module CurrencyApi {
  import opened Wrappers
  import opened Json
  import opened QueryString

  // ---------------------------------------------------------------- data model

  datatype Subscription = Free | Paid

  /** The constructor arguments that shape requests; the cache and HTTP client live in the service object. */
  datatype Config = Config(
    apiKey: ByteString,
    subscription: Subscription,
    symbols: Option<seq<ByteString>>,
    multiconversion: bool)

  /**
   * What a caller may pass to `send`. Amounts are the canonical decimal string of
   * the request's `Decimal`, dates the `YYYY-MM-DD` form of its calendar date;
   * `Unrecognized` is any other object.
   */
  datatype Request =
    | CurrentExchangeRate(baseCurrency: ByteString, quoteCurrency: ByteString)
    | HistoricalExchangeRate(baseCurrency: ByteString, quoteCurrency: ByteString, date: ByteString)
    | CurrentConversion(baseAmount: ByteString, baseCurrency: ByteString, quoteCurrency: ByteString)
    | HistoricalConversion(baseAmount: ByteString, baseCurrency: ByteString, quoteCurrency: ByteString, date: ByteString)
    | Unrecognized(className: string)
  {
    predicate IsRate() {
      CurrentExchangeRate? || HistoricalExchangeRate?
    }

    predicate IsConversion() {
      CurrentConversion? || HistoricalConversion?
    }

    predicate IsHistorical() {
      HistoricalExchangeRate? || HistoricalConversion?
    }
  }

  /** The request and response of an HTTP exchange, kept by the exceptions for diagnostics. */
  datatype HttpCause = HttpCause(url: string, status: int)

  /** The typed errors a caller receives inside an `ErrorResponse`. */
  datatype RequestError =
    | RequestNotSupported(request: Request)
    | ExchangeRateNotFound(request: Request, cause: Option<HttpCause>)
    | ConversionNotPerformed(request: Request, cause: Option<HttpCause>)

  /** The value and the provider's timestamp are kept as the JSON they were read from. */
  datatype Response =
    | ExchangeRateResponse(rate: Json, date: Json)
    | ConversionResponse(amount: Json, date: Json)
    | ErrorResponse(error: RequestError)

  /** What `send` throws instead of returning. */
  datatype Fault =
    | TransportFailure(url: string)       // the HTTP client itself raised
    | HttpFailure(cause: HttpCause)       // HttpFailureException: a status other than 200 and 422
    | MalformedJson(url: string)          // JsonException from json_decode
    | NoRatesInResponse(url: string)      // Error: the body decoded to null
    | NotAnArray(payload: Json)           // TypeError: retrieveRates may only return an array
    | LastUpdatedAtMissing                // Error: a value was found but meta.last_updated_at was not

  datatype Outcome = Returned(response: Response) | Thrown(fault: Fault)

  /** The answer of the HTTP client to a GET: a status and a body, or its own failure. */
  datatype Body = Undecodable | Decoded(json: Json)
  datatype HttpReply = Reply(status: int, body: Body) | Unreachable

  type Transport = string -> HttpReply

  type Cache = map<string, Json>

  // ------------------------------------------------------------- dispatch gate

  /** `supports`: rate lookups under any subscription, conversions only under `Paid`, nothing else. */
  function Supports(cfg: Config, request: Request): (r: bool)
    ensures r ==> request.IsRate() || request.IsConversion()
    ensures request.IsRate() ==> r
    ensures request.IsConversion() ==> (r <==> cfg.subscription == Paid)
  {
    match request
    case CurrentExchangeRate(_, _) => true
    case HistoricalExchangeRate(_, _, _) => true
    case CurrentConversion(_, _, _) => cfg.subscription == Paid
    case HistoricalConversion(_, _, _, _) => cfg.subscription == Paid
    case Unrecognized(_) => false
  }

  function Refused(request: Request): Outcome {
    Returned(ErrorResponse(RequestNotSupported(request)))
  }

  // ------------------------------------------------------------- query builder

  const LatestEndpoint: string := "https://api.currencyapi.com/v3/latest?"
  const HistoricalEndpoint: string := "https://api.currencyapi.com/v3/historical?"
  const ConvertEndpoint: string := "https://api.currencyapi.com/v3/convert?"

  /** The `currencies` parameter of the restriction list: `implode(',', symbols)`, or `null` when unrestricted. */
  function SymbolList(cfg: Config): (r: Option<ByteString>)
    ensures r.None? <==> cfg.symbols.None?
  {
    match cfg.symbols
    case None => None
    case Some(list) => Some(Join(list, ','))
  }

  function DateParameter(request: Request): Query {
    if request.IsHistorical() then [("date", Some(request.date))] else []
  }

  /** The query of a rate request, in the order the PHP array is built. */
  function RateQuery(cfg: Config, request: Request): Query
    requires request.IsRate()
  {
    [("apikey", Some(cfg.apiKey)),
     ("base_currency", Some(request.baseCurrency)),
     ("currencies", SymbolList(cfg))]
    + DateParameter(request)
  }

  /** The query of a conversion request, in the order the PHP array is built. */
  function ConversionQuery(cfg: Config, request: Request): Query
    requires request.IsConversion()
  {
    [("apikey", Some(cfg.apiKey)),
     ("base_currency", Some(request.baseCurrency)),
     ("value", Some(request.baseAmount)),
     ("currencies", if cfg.multiconversion then SymbolList(cfg) else Some(request.quoteCurrency))]
    + DateParameter(request)
  }

  function RequestQuery(cfg: Config, request: Request): Query
    requires request.IsRate() || request.IsConversion()
  {
    if request.IsRate() then RateQuery(cfg, request) else ConversionQuery(cfg, request)
  }

  function Endpoint(request: Request): string
    requires request.IsRate() || request.IsConversion()
  {
    match request
    case CurrentExchangeRate(_, _) => LatestEndpoint
    case HistoricalExchangeRate(_, _, _) => HistoricalEndpoint
    case _ => ConvertEndpoint
  }

  /** The URL a supported request is fetched from: the endpoint followed by the encoded query. */
  function RequestUrl(cfg: Config, request: Request): string
    requires request.IsRate() || request.IsConversion()
  {
    Endpoint(request) + BuildQuery(RequestQuery(cfg, request))
  }

  /** Reads a URL back into its endpoint (up to and including `?`) and its parameters. */
  function ParseUrl(url: string): Option<(string, seq<(string, string)>)> {
    var parts := Split(url, '?');
    if |parts| != 2 then None
    else match ParseQuery(parts[1])
      case None => None
      case Some(params) => Some((parts[0] + "?", params))
  }

  // ---------------------------------------------------------- cache then fetch

  /** `'peso|curapi|' . sha1($url)`, with the digest taken to be the URL itself. */
  function CacheKey(url: string): (key: string)
    ensures |key| == |url| + 12 && key[..12] == "peso|curapi|" && key[12..] == url
  {
    "peso|curapi|" + url
  }

  /** `cache->get` returns something other than `null`. */
  predicate CacheHit(cache: Cache, url: string) {
    CacheKey(url) in cache && cache[CacheKey(url)] != JNull
  }

  /** A GET that makes retrieveRates store a payload: status 200 and a body that decodes to something other than `null`. */
  predicate Storable(reply: HttpReply) {
    reply.Reply? && reply.status == 200 && reply.body.Decoded? && reply.body.json != JNull
  }

  datatype Fetched = Rates(payload: Json) | Rejected(cause: HttpCause) | Failed(fault: Fault)

  /** What one retrieveRates call returns, the cache it leaves, and the URLs it sent to the HTTP client. */
  datatype Retrieval = Retrieval(result: Fetched, cache: Cache, calls: seq<string>)

  /** retrieveRates: a cache hit is returned as it is; a miss makes one GET whose status decides the rest. */
  function Retrieve(transport: Transport, cache: Cache, url: string): (r: Retrieval)
    ensures r.calls == if CacheHit(cache, url) then [] else [url]
    ensures CacheHit(cache, url) ==> r.cache == cache
    ensures r.cache == if !CacheHit(cache, url) && Storable(transport(url))
                       then cache[CacheKey(url) := transport(url).body.json] else cache
    ensures r.result.Rates? ==>
              IsArray(r.result.payload) && CacheKey(url) in r.cache && r.result.payload == r.cache[CacheKey(url)]
    ensures r.result.Rejected? <==>
              !CacheHit(cache, url) && transport(url).Reply? && transport(url).status == 422
    ensures r.result.Rejected? ==> r.result.cause == HttpCause(url, 422)
    ensures r.result.Failed? && r.result.fault.HttpFailure? <==>
              !CacheHit(cache, url) && transport(url).Reply? && transport(url).status !in {200, 422}
    ensures r.result.Failed? && r.result.fault.HttpFailure? ==>
              r.cache == cache && r.result.fault.cause == HttpCause(url, transport(url).status)
    ensures r.result == Failed(NoRatesInResponse(url)) <==>
              !CacheHit(cache, url) && transport(url) == Reply(200, Decoded(JNull))
    ensures !CacheHit(cache, url) && transport(url).Unreachable? ==> r.result == Failed(TransportFailure(url))
    ensures !CacheHit(cache, url) && transport(url) == Reply(200, Undecodable) ==> r.result == Failed(MalformedJson(url))
    ensures (CacheHit(cache, url) || Storable(transport(url))) && !IsArray(r.cache[CacheKey(url)]) ==>
              r.result == Failed(NotAnArray(r.cache[CacheKey(url)]))
    ensures r.result.Rates? <==>
              && CacheHit(r.cache, url) && IsArray(r.cache[CacheKey(url)])
              && (CacheHit(cache, url) || Storable(transport(url)))
  {
    var key := CacheKey(url);
    if key in cache && cache[key] != JNull then
      var stored := cache[key];
      Retrieval(if IsArray(stored) then Rates(stored) else Failed(NotAnArray(stored)), cache, [])
    else
      match transport(url)
      case Unreachable => Retrieval(Failed(TransportFailure(url)), cache, [url])
      case Reply(status, body) =>
        if status == 422 then Retrieval(Rejected(HttpCause(url, status)), cache, [url])
        else if status != 200 then Retrieval(Failed(HttpFailure(HttpCause(url, status))), cache, [url])
        else match body
          case Undecodable => Retrieval(Failed(MalformedJson(url)), cache, [url])
          case Decoded(json) =>
            if json == JNull then Retrieval(Failed(NoRatesInResponse(url)), cache, [url])
            else
              var stored := cache[key := json];
              Retrieval(if IsArray(json) then Rates(json) else Failed(NotAnArray(json)), stored, [url])
  }

  // ------------------------------------------------------ response interpreter

  /** `$payload['data'][$quote]['value'] ?? null` */
  function QuotedValue(payload: Json, quote: string): Option<Json> {
    match Get(payload, "data")
    case None => None
    case Some(data) =>
      match Get(data, quote)
      case None => None
      case Some(entry) => Get(entry, "value")
  }

  /** `$payload['meta']['last_updated_at'] ?? ...` */
  function LastUpdated(payload: Json): Option<Json> {
    match Get(payload, "meta")
    case None => None
    case Some(meta) => Get(meta, "last_updated_at")
  }

  /** The variant's "not found" error: ExchangeRateNotFound for rates, ConversionNotPerformed for conversions. */
  function NotFound(request: Request, cause: Option<HttpCause>): RequestError
    requires request.IsRate() || request.IsConversion()
  {
    if request.IsRate() then ExchangeRateNotFound(request, cause) else ConversionNotPerformed(request, cause)
  }

  /** The variant's success response. */
  function Found(request: Request, value: Json, date: Json): Response
    requires request.IsRate() || request.IsConversion()
  {
    if request.IsRate() then ExchangeRateResponse(value, date) else ConversionResponse(value, date)
  }

  function DataCurrencies(payload: Json): set<string> {
    match Get(payload, "data")
    case Some(JObject(fields)) => fields.Keys
    case _ => {}
  }

  /**
   * The tail of performRateRequest and performConversionRequest: look up the
   * quote currency first, and only when a value is there read the timestamp.
   */
  function Interpret(payload: Json, request: Request): (o: Outcome)
    requires request.IsRate() || request.IsConversion()
    ensures o == Returned(ErrorResponse(NotFound(request, None))) <==>
              QuotedValue(payload, request.quoteCurrency).None?
    ensures o.Thrown? <==>
              QuotedValue(payload, request.quoteCurrency).Some? && LastUpdated(payload).None?
    ensures o.Thrown? ==> o.fault == LastUpdatedAtMissing
    ensures QuotedValue(payload, request.quoteCurrency).Some? && LastUpdated(payload).Some? ==>
              o == Returned(Found(request, QuotedValue(payload, request.quoteCurrency).value, LastUpdated(payload).value))
    ensures o.Returned? && !o.response.ErrorResponse? ==>
              (o.response.ExchangeRateResponse? <==> request.IsRate())
    ensures request.quoteCurrency !in DataCurrencies(payload) ==>
              o == Returned(ErrorResponse(NotFound(request, None)))
  {
    match QuotedValue(payload, request.quoteCurrency)
    case None => Returned(ErrorResponse(NotFound(request, None)))
    case Some(value) =>
      match LastUpdated(payload)
      case None => Thrown(LastUpdatedAtMissing)
      case Some(date) => Returned(Found(request, value, date))
  }

  // ---------------------------------------------------------------- dispatcher

  /** One `send`: its outcome, the cache it leaves and the URLs it sent to the HTTP client. */
  datatype Step = Step(outcome: Outcome, cache: Cache, calls: seq<string>)

  /** performRateRequest / performConversionRequest once the request has passed the gate. */
  function Perform(cfg: Config, transport: Transport, cache: Cache, request: Request): (r: Step)
    requires request.IsRate() || request.IsConversion()
    ensures var url := RequestUrl(cfg, request);
            r.calls == if CacheHit(cache, url) then [] else [url]
    ensures r.outcome != Refused(request)
    ensures var url := RequestUrl(cfg, request);
            !CacheHit(cache, url) && transport(url).Reply? && transport(url).status == 422 ==>
              r == Step(Returned(ErrorResponse(NotFound(request, Some(HttpCause(url, 422))))), cache, [url])
    ensures var url := RequestUrl(cfg, request);
            !CacheHit(cache, url) && transport(url).Reply? && transport(url).status !in {200, 422} ==>
              r == Step(Thrown(HttpFailure(HttpCause(url, transport(url).status))), cache, [url])
    ensures var fetched := Retrieve(transport, cache, RequestUrl(cfg, request));
            fetched.result.Failed? ==> r.outcome == Thrown(fetched.result.fault)
    ensures var url := RequestUrl(cfg, request);
            !CacheHit(cache, url) && Storable(transport(url)) && IsArray(transport(url).body.json) ==>
              && r.outcome == Interpret(transport(url).body.json, request)
              && r.cache == cache[CacheKey(url) := transport(url).body.json]
    ensures var url := RequestUrl(cfg, request);
            CacheHit(cache, url) && IsArray(cache[CacheKey(url)]) ==>
              r == Step(Interpret(cache[CacheKey(url)], request), cache, [])
    ensures r.outcome.Returned? && !r.outcome.response.ErrorResponse? ==>
              (r.outcome.response.ExchangeRateResponse? <==> request.IsRate())
  {
    var r := Retrieve(transport, cache, RequestUrl(cfg, request));
    var outcome :=
      match r.result
      case Rejected(cause) => Returned(ErrorResponse(NotFound(request, Some(cause))))
      case Failed(fault) => Thrown(fault)
      case Rates(payload) => Interpret(payload, request);
    Step(outcome, r.cache, r.calls)
  }

  /** `send`: route by variant; conversions need the `Paid` subscription; anything else is refused. */
  function Serve(cfg: Config, transport: Transport, cache: Cache, request: Request): (r: Step)
    ensures Supports(cfg, request) ==> r == Perform(cfg, transport, cache, request)
    ensures !Supports(cfg, request) ==> r == Step(Refused(request), cache, [])
  {
    match request
    case CurrentExchangeRate(_, _) => Perform(cfg, transport, cache, request)
    case HistoricalExchangeRate(_, _, _) => Perform(cfg, transport, cache, request)
    case CurrentConversion(_, _, _) =>
      if cfg.subscription != Paid then Step(Refused(request), cache, []) else Perform(cfg, transport, cache, request)
    case HistoricalConversion(_, _, _, _) =>
      if cfg.subscription != Paid then Step(Refused(request), cache, []) else Perform(cfg, transport, cache, request)
    case Unrecognized(_) => Step(Refused(request), cache, [])
  }
}
