/**
 * `CurrencyApiService` as an object: the configuration and the HTTP client are
 * fixed at construction, the cache is the one piece of state that `send`
 * changes, and a ghost log records every URL handed to the HTTP client.
 */
module Service {
  import opened Wrappers
  import opened Json
  import opened CurrencyApi

  class CurrencyApiService {
    const config: Config
    const transport: Transport
    var cache: Cache
    ghost var sent: seq<string>

    constructor (config: Config, transport: Transport, cache: Cache)
      ensures this.config == config && this.transport == transport
      ensures this.cache == cache && sent == []
    {
      this.config := config;
      this.transport := transport;
      this.cache := cache;
      sent := [];
    }

    /** `send`: the outcome and the new cache are those of one Serve step, and the step's calls are logged. */
    method Send(request: Request) returns (outcome: Outcome)
      modifies this
      ensures var step := Serve(config, transport, old(cache), request);
              outcome == step.outcome && cache == step.cache && sent == old(sent) + step.calls
      ensures !Supports(config, request) ==>
                outcome == Refused(request) && cache == old(cache) && sent == old(sent)
    {
      if request.IsRate() {
        outcome := PerformRateRequest(request);
      } else if request.IsConversion() {
        outcome := PerformConversionRequest(request);
      } else {
        outcome := Refused(request);
      }
    }

    method PerformRateRequest(request: Request) returns (outcome: Outcome)
      requires request.IsRate()
      modifies this
      ensures var step := Perform(config, transport, old(cache), request);
              outcome == step.outcome && cache == step.cache && sent == old(sent) + step.calls
    {
      var url := RequestUrl(config, request);
      var rates := RetrieveRates(url);
      match rates
      case Rejected(cause) =>
        outcome := Returned(ErrorResponse(ExchangeRateNotFound(request, Some(cause))));
      case Failed(fault) =>
        outcome := Thrown(fault);
      case Rates(payload) =>
        outcome := Interpret(payload, request);
    }

    method PerformConversionRequest(request: Request) returns (outcome: Outcome)
      requires request.IsConversion()
      modifies this
      ensures var step := if config.subscription == Paid then Perform(config, transport, old(cache), request)
                          else Step(Refused(request), old(cache), []);
              outcome == step.outcome && cache == step.cache && sent == old(sent) + step.calls
    {
      if config.subscription != Paid {
        outcome := Refused(request);
        return;
      }
      var url := RequestUrl(config, request);
      var amounts := RetrieveRates(url);
      match amounts
      case Rejected(cause) =>
        outcome := Returned(ErrorResponse(ConversionNotPerformed(request, Some(cause))));
      case Failed(fault) =>
        outcome := Thrown(fault);
      case Rates(payload) =>
        outcome := Interpret(payload, request);
    }

    /** retrieveRates: look in the cache first; on a miss make one GET and store a 200 payload before returning it. */
    method RetrieveRates(url: string) returns (rates: Fetched)
      modifies this
      ensures var r := Retrieve(transport, old(cache), url);
              rates == r.result && cache == r.cache && sent == old(sent) + r.calls
      ensures CacheHit(old(cache), url) ==> sent == old(sent) && cache == old(cache)
      ensures rates.Rates? && !CacheHit(old(cache), url) ==> cache == old(cache)[CacheKey(url) := rates.payload]
      ensures rates.Rejected? ==> cache == old(cache)
    {
      var cacheKey := CacheKey(url);
      if cacheKey in cache && cache[cacheKey] != JNull {
        var stored := cache[cacheKey];
        rates := if IsArray(stored) then Rates(stored) else Failed(NotAnArray(stored));
        return;
      }
      var response := transport(url);
      sent := sent + [url];
      if response.Unreachable? {
        rates := Failed(TransportFailure(url));
        return;
      }
      if response.status == 422 {
        rates := Rejected(HttpCause(url, response.status));
        return;
      }
      if response.status != 200 {
        rates := Failed(HttpFailure(HttpCause(url, response.status)));
        return;
      }
      if response.body.Undecodable? {
        rates := Failed(MalformedJson(url));
        return;
      }
      var decoded := response.body.json;
      if decoded == JNull {
        rates := Failed(NoRatesInResponse(url));
        return;
      }
      cache := cache[cacheKey := decoded];
      rates := if IsArray(decoded) then Rates(decoded) else Failed(NotAnArray(decoded));
    }
  }
}
