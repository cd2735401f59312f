/**
 * Worked cases of the adapter after its test suite, checked against
 * the definitions: a provider payload read, and a sequence of sends whose
 * HTTP calls are counted.
 */
module Scenarios {
  import opened Wrappers
  import opened Json
  import opened QueryString
  import opened CurrencyApi
  import opened Properties
  import Service

  /** A payload holding the EUR to USD rate the test suite expects is read as that rate with its timestamp. */
  lemma ReadsRateExample()
    ensures var payload := JObject(map[
              "data" := JObject(map["USD" := JObject(map["value" := JString("1.1598235485")])]),
              "meta" := JObject(map["last_updated_at" := JString("2025-07-28T23:59:59Z")])]);
            Interpret(payload, CurrentExchangeRate("EUR", "USD"))
              == Returned(ExchangeRateResponse(JString("1.1598235485"), JString("2025-07-28T23:59:59Z")))
  {
  }

  /**
   * A multiconversion session: three conversions of one amount from one base
   * cost at most one HTTP call, and a quote currency the provider did not
   * answer for comes back as ConversionNotPerformed.
   */
  method MulticonversionSession(
    service: Service.CurrencyApiService, amount: ByteString, base: ByteString,
    quote1: ByteString, quote2: ByteString, quote3: ByteString)
    returns (o1: Outcome, o2: Outcome, o3: Outcome)
    requires service.config.subscription == Paid && service.config.multiconversion
    requires var url := RequestUrl(service.config, CurrentConversion(amount, base, quote1));
             CacheHit(service.cache, url) || Storable(service.transport(url))
    modifies service
    ensures var url := RequestUrl(service.config, CurrentConversion(amount, base, quote1));
            && service.sent == old(service.sent) + (if CacheHit(old(service.cache), url) then [] else [url])
            && CacheHit(service.cache, url)
    ensures var url := RequestUrl(service.config, CurrentConversion(amount, base, quote1));
            var payload := service.cache[CacheKey(url)];
            IsArray(payload) && quote3 !in DataCurrencies(payload) ==>
              o3 == Returned(ErrorResponse(ConversionNotPerformed(CurrentConversion(amount, base, quote3), None)))
  {
    var cfg, transport := service.config, service.transport;
    var r1 := CurrentConversion(amount, base, quote1);
    var r2 := CurrentConversion(amount, base, quote2);
    var r3 := CurrentConversion(amount, base, quote3);
    var url := RequestUrl(cfg, r1);
    ghost var c0 := service.cache;
    o1 := service.Send(r1);
    ghost var c1 := service.cache;
    MulticonversionSharesFetch(cfg, transport, c0, r1, r2);
    SameUrlIffSameSignature(cfg, r1, r2);
    SameUrlSharesFetch(cfg, transport, c0, r1, r2);
    o2 := service.Send(r2);
    assert service.cache == c1;
    MulticonversionSharesFetch(cfg, transport, c0, r1, r3);
    SameUrlIffSameSignature(cfg, r1, r3);
    SameUrlSharesFetch(cfg, transport, c0, r1, r3);
    o3 := service.Send(r3);
  }
}
