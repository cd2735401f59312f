# currencyapi.com adapter for the Peso currency layer, in Dafny

`CurrencyApiService` lets the Peso abstraction layer get exchange rates and
conversions from currencyapi.com. Callers pass one of four
provider-agnostic requests: a current or historical exchange rate, or a
current or historical conversion. For each request the adapter:

1. decides whether it serves it (conversions need the `Paid` subscription);
2. builds the provider URL from an ordered query;
3. returns a cached payload for that URL, or makes one HTTP GET and caches a
   status-200 payload;
4. reads `data[quote].value` and `meta.last_updated_at` from the JSON.

It returns a typed response or a typed error, or it throws.

The project has these modules, one per file:

- `Wrappers` (`wrappers.dfy`): `Option`.
- `Json` (`json.dfy`): the tree `json_decode` yields with `JSON_OBJECT_AS_ARRAY`.
  Also `Get`, which reads one level the way `$x[$k] ?? null` does.
- `QueryString` (`query_string.dfy`): the PHP built-ins that put the query on
  the wire. These are `implode`, `rawurlencode` (section 2.1 and section 2.3 of
  RFC 3986) and `http_build_query(..., PHP_QUERY_RFC3986)`. Each has a partial
  inverse with a round-trip proof. PHP strings are byte strings, so they are
  modelled as `ByteString`: a string whose every character is below U+0100,
  one character per byte.
- `CurrencyApi` (`currency_api.dfy`): the pure definitions.
  - The requests, the configuration, the responses, the errors and the faults.
  - The three endpoint constants.
  - `RateQuery` and `ConversionQuery` (src/CurrencyApiService.php:69-80, 117-134), `RequestUrl`.
  - `CacheKey` and `Retrieve` (retrieveRates).
  - `Interpret` (the value and timestamp lookups).
  - `Perform` and `Serve`: one whole `send` as a function of the cache it
    starts from. A `Step` is the outcome, the new cache and the URLs sent to
    the HTTP client.
  - `Supports`.
- `Properties` (`properties.dfy`): lemmas about those definitions.
- `Service` (`service.dfy`): the class `CurrencyApiService`.
  - `config` and `transport` are immutable. The cache is a `map` field that
    `RetrieveRates` updates in place. A ghost log `sent` records every URL
    given to the HTTP client.
  - Each method is proved against the matching pure definition.
- `Scenarios` (`scenarios.dfy`): worked cases. A payload holding the EUR to
  USD rate the current-rate test expects is read. A multiconversion session,
  shaped after the conversion test, runs on the class.

The HTTP client is a function from URL to reply: a status and a body, or a
client failure. A body has already been parsed, or it is `Undecodable`.

A thrown exception is `Thrown(fault)`. The faults are:
- the HTTP client's own exception (`TransportFailure`);
- HttpFailure;
- JsonException;
- the two `Error`s;
- the `TypeError` PHP raises when retrieveRates would return a non-array.

## Behaviour worth knowing

- **The amount is part of every conversion URL.** `value` (src/CurrencyApiService.php:120)
  is in the query in both modes. So a different amount is a different URL and a
  new HTTP call, also under multiconversion (`ConversionAmountFetchesAgain`).
  The multiconversion test agrees (tests/CurrentConversionTest.php:50-104). Its
  first three conversions, of one amount from EUR, cost one request. A
  different amount and a different base then cost one more each, three in all.
- **Of the 200 bodies that decode to an empty value, only `null` is fatal.** A
  200 body that decodes to `null` raises `Error` (src/CurrencyApiService.php:196). An empty
  `[]` or `{}` is cached and gives the not-found error. A body that is not JSON
  throws `JsonException` (line 195). A scalar ends in `TypeError`, as the next
  point says.
- **A scalar body is cached before it fails.** A 200 body that decodes to a
  scalar (`5`, `false`, `"x"`) is stored by `cache->set` (src/CurrencyApiService.php:198).
  Then the `array|ErrorResponse` return type (line 167) raises `TypeError`.
  Later hits on that key raise the same fault (`NotAnArray`) without an HTTP call.
- **An empty restriction list is sent.** `implode` of an empty symbol list gives `""`
  (src/CurrencyApiService.php:72, 125), so `currencies=` goes on the wire
  (`SymbolListSplits`).

## Model

| member | source | states |
|---|---|---|
| `QueryString.Join` | src/CurrencyApiService.php:72 | `implode` of byte strings with a byte separator is a byte string. Its round trip is `QueryString.SplitJoin`, used by `SymbolListSplits` and `ParseBuildQuery`. |
| `QueryString.PercentEncode` | src/CurrencyApiService.php:76 | `rawurlencode` output holds only unreserved characters and `%`. So `&`, `=` and `?` never appear inside an encoded key or value. |
| `QueryString.DecodeEncode` | src/CurrencyApiService.php:76 | Percent-decoding gives back every byte string `rawurlencode` encodes. |
| `QueryString.PercentEncodeInjective` | src/CurrencyApiService.php:134 | Two distinct byte strings never encode to the same text. |
| `QueryString.BuildQuery` | src/CurrencyApiService.php:76 | The built query never contains `?`, so the URL splits at the endpoint's `?` alone. Its contents are stated by `ParseBuildQuery`. |
| `QueryString.ParseBuildQuery` | src/CurrencyApiService.php:134 | Parsing the `http_build_query` string gives back exactly the non-null parameters, in insertion order. Null entries are dropped. |
| `CurrencyApi.Supports` | src/CurrencyApiService.php:204-215 | Only a rate or conversion request is supported. Every rate request is. A conversion request is supported exactly under `Paid`. |
| `CurrencyApi.RateQuery` | src/CurrencyApiService.php:69-80 | No contract of its own; its property is `Properties.ParseRequestUrl`. |
| `CurrencyApi.ConversionQuery` | src/CurrencyApiService.php:117-134 | No contract of its own; its property is `Properties.ParseRequestUrl`. |
| `Properties.SymbolListSplits` | src/CurrencyApiService.php:72 | The `currencies` value is null exactly when no symbols are configured. An empty list is sent as the empty value. When the list is non-empty and no symbol holds a comma, cutting the value at commas gives the symbols back in order. |
| `CurrencyApi.CacheKey` | src/CurrencyApiService.php:169 | The key is the fixed 12-character prefix of line 169, followed by the URL's stand-in digest, so the URL can be read back from it. |
| `CurrencyApi.Retrieve` | src/CurrencyApiService.php:167-201 | A cache hit makes no HTTP call. A miss makes exactly one, to this URL. The cache changes only by storing a 200 body that decodes to non-null under the URL's key. Only an array payload is returned as rates, and it is the cached one. 422 is the soft rejection, with the cache unchanged. Any other status except 200 is HttpFailure, carrying the URL and that status, with the cache unchanged. A body that decodes to null is NoRatesInResponse. A client failure is TransportFailure, a body that is not JSON is MalformedJson, and a cached or stored payload that is not an array is NotAnArray. |
| `CurrencyApi.Perform` | src/CurrencyApiService.php:66-162 | A supported request costs no HTTP call on a cache hit and exactly one, to its own URL, on a miss. It is never refused. A 422 gives the variant's not-found error, with the URL and status as cause, and leaves the cache unchanged. Any other status except 200 throws HttpFailure with that cause, and leaves the cache unchanged. Every fault of the retrieval is thrown as it is. A fetched array payload is stored under the URL's key and interpreted. A cached array payload is interpreted with no call and no cache change. A success is an exchange-rate response exactly for a rate request. |
| `CurrencyApi.Serve` | src/CurrencyApiService.php:55-64 | `send` runs the variant's perform exactly when `supports` holds. Otherwise it answers RequestNotSupported with no call and no cache change; this includes a conversion without `Paid` (lines 113-115). |
| `CurrencyApi.Interpret` | src/CurrencyApiService.php:96-107 | A missing `data[quote].value` gives the variant's not-found error and never a throw. Only a present value with a missing `last_updated_at` throws. When both the value and the timestamp are present, the result is the variant's success response carrying exactly that value and timestamp. A quote the payload has no data for is not found. |
| `Properties.ParseRequestUrl` | src/CurrencyApiService.php:69-134 | Every request URL parses back to its endpoint and these parameters, in order. Always `apikey` and `base_currency`. For conversions, `value`. Then `currencies`: the quote without multiconversion, otherwise the comma-joined symbols, or nothing when unrestricted. Last, `date` for historical requests. |
| `Properties.SameUrlIffSameSignature` | src/CurrencyApiService.php:117-134 | Two requests build the same URL, and so share the same cache key, if and only if they agree on the endpoint and the base. They must also agree on the amount and the date where those are sent, and on the quote when it is sent (conversions without multiconversion). |
| `Properties.CacheKeyInjective` | src/CurrencyApiService.php:169 | Equal cache keys mean equal URLs. |
| `Properties.SupportsAgreesWithServe` | src/CurrencyApiService.php:204-215 | `supports` holds for both rate variants always, for both conversion variants exactly under `Paid`, and for nothing else. It holds exactly when `send` does not answer RequestNotSupported. A refused request changes no cache entry and makes no HTTP call. |
| `Properties.ServeRepeat` | src/CurrencyApiService.php:171-198 | From a warm cache, or after a reply that is stored, sending the same request twice gives the same outcome and the same cache, with one HTTP call in all at most. After a reply that is not stored (422, another non-200 status, a client failure, an undecodable or null body), the cache is unchanged and the repeat calls the client again. |
| `Properties.SameUrlSharesFetch` | src/CurrencyApiService.php:169-175 | Once a URL's payload is cached, a second request with that URL makes no HTTP call. It leaves the cache as it is and interprets the cached payload for its own quote. |
| `Properties.NewUrlFetchesAgain` | src/CurrencyApiService.php:169-183 | A request whose URL differs from the first one's, and is not cached, makes its own HTTP call to its own URL. |
| `Properties.MulticonversionSharesFetch` | src/CurrencyApiService.php:123-125 | Under multiconversion, conversions with the same amount, base and date share one fetch, whatever their quote currencies. This holds once the first URL is cached or its reply is stored. |
| `Properties.ConversionAmountFetchesAgain` | src/CurrencyApiService.php:117-121 | A conversion with a different amount builds a different URL, in both modes. If that URL is not cached, it makes a new HTTP call to that URL. |
| `Properties.SingleConversionQuoteFetchesAgain` | src/CurrencyApiService.php:126-128 | Without multiconversion, a conversion to a different quote builds a different URL. If that URL is not cached, it makes a new HTTP call to that URL. |
| `Properties.RateUrlIgnoresQuote` | src/CurrencyApiService.php:69-80 | A rate URL never depends on the quote currency. |
| `Service.CurrencyApiService.constructor` | src/CurrencyApiService.php:42-52 | The service keeps the given configuration, HTTP client and cache, with an empty call log. |
| `Service.CurrencyApiService.Send` | src/CurrencyApiService.php:55-64 | The outcome and the new cache are those of `Serve`, and its calls are appended to the log. An unsupported request is refused and leaves the cache and the log alone. |
| `Service.CurrencyApiService.PerformRateRequest` | src/CurrencyApiService.php:66-108 | A rate request runs `Perform`: its URL, one retrieval, a 422 wrapped as ExchangeRateNotFound with its cause, then `Interpret`. |
| `Service.CurrencyApiService.PerformConversionRequest` | src/CurrencyApiService.php:110-162 | Without `Paid`, the request is refused with no call and no cache change. With `Paid`, it runs `Perform`: a 422 becomes ConversionNotPerformed. |
| `Service.CurrencyApiService.RetrieveRates` | src/CurrencyApiService.php:167-201 | The in-place version of `Retrieve`. A hit leaves the cache and the log untouched. A fresh payload is stored under exactly the URL's key. A 422 leaves the cache unchanged. |
| `Scenarios.ReadsRateExample` | tests/CurrentRateTest.php:29-32 | A payload `{data: {USD: {value: "1.1598235485"}}, meta: {last_updated_at: ...}}` read for EUR to USD gives rate `"1.1598235485"` with that timestamp. The payload's shape follows src/CurrencyApiService.php:96-105. |
| `Scenarios.MulticonversionSession` | tests/CurrentConversionTest.php:107-143 | Three conversions from one base and amount under multiconversion cost at most one HTTP call in all. A third quote that the payload has no data for comes back as ConversionNotPerformed. |

## Left out

- HTTP transport, request factory and User-Agent composition (src/CurrencyApiService.php:177-183): these are foreign PSR collaborators. The client is a function from URL to reply, and the ghost log `sent` stands in for the mock client's request list.
- `CurrencyApi.CacheKey`: the key uses the URL itself where the source uses its SHA-1 digest. SHA-1 is treated as collision-free, so key equality is URL equality.
- `json_decode` of the body text is not modelled: a 200 body is given already parsed, or as `Undecodable`, which stands for the JsonException.
- `Decimal::init` and `Calendar::parseDateTimeString` are outside the model. Responses carry the JSON value and the timestamp as read. A request's date is its canonical `YYYY-MM-DD` string, and its amount is the `Decimal`'s string form.
- The cache time-to-live (`DateInterval`) and expiry are not modelled: the cache is a map without expiry.
- The default collaborators (`NullCache`, `DiscoveredHttpClient`, `DiscoveredRequestFactory`) are not modelled: the cache and the client are always passed in.
- Exception message texts are not modelled: they are rendered by the `peso/core` exception classes, which are not part of this model. The errors carry the request and, for a 422, the URL and status they would render.
- `Json.Get`: PHP also resolves a decimal-integer key (such as a quote currency `"0"`) against a JSON list or a string offset. Currency codes are never numeric, so only objects are looked into.
- The HTTP client is a fixed function of the URL: a repeated call to one URL is taken to get the same reply. `ServeRepeat` relies on this only where the first reply is stored, so the repeat never reaches the client.
- Concurrent callers sharing one cache, and last-write-wins races, are not modelled: each `send` is one sequential step.
- Any object that is not one of the four requests is `Unrecognized`, identified only by its class name.
