/**
 * What the adapter promises, proved about the definitions in CurrencyApi:
 * what a URL carries, which requests share a URL and so a cache entry,
 * the subscription gate, and what repeated and related `send` calls cost.
 */
module Properties {
  import opened Wrappers
  import opened Json
  import opened QueryString
  import opened CurrencyApi

  // ------------------------------------------------------------ URL contents

  /** The parameters the provider's wire contract expects for a request, `null` ones left out. */
  function Parameters(cfg: Config, request: Request): seq<(string, string)>
    requires request.IsRate() || request.IsConversion()
  {
    var currencies :=
      if request.IsConversion() && !cfg.multiconversion then [("currencies", request.quoteCurrency)]
      else if cfg.symbols.Some? then [("currencies", Join(cfg.symbols.value, ','))]
      else [];
    [("apikey", cfg.apiKey), ("base_currency", request.baseCurrency)]
    + (if request.IsConversion() then [("value", request.baseAmount)] else [])
    + currencies
    + (if request.IsHistorical() then [("date", request.date)] else [])
  }

  lemma EndpointSplits(request: Request)
    requires request.IsRate() || request.IsConversion()
    ensures var e := Endpoint(request); |e| > 0 && e == e[..|e| - 1] + "?" && '?' !in e[..|e| - 1]
  {
  }

  lemma PresentQuery(cfg: Config, request: Request)
    requires request.IsRate() || request.IsConversion()
    ensures Present(RequestQuery(cfg, request)) == Parameters(cfg, request)
  {
    var q := RequestQuery(cfg, request);
    var n := if request.IsRate() then 3 else 4;
    assert q == q[..n] + DateParameter(request);
    PresentAppend(q[..n], DateParameter(request));
    assert q[..n] == [q[0]] + [q[1]] + q[2..n];
    PresentAppend([q[0]] + [q[1]], q[2..n]);
    PresentAppend([q[0]], [q[1]]);
    if request.IsConversion() {
      assert q[2..n] == [q[2]] + [q[3]];
      PresentAppend([q[2]], [q[3]]);
    }
  }

  /**
   * The restriction list is sent as `implode(',', symbols)`: cutting the
   * `currencies` value at commas gives the configured symbols back, and an
   * empty list is sent as an empty value rather than left out.
   */
  lemma {:induction false} SymbolListSplits(cfg: Config)
    ensures SymbolList(cfg).None? <==> cfg.symbols.None?
    ensures cfg.symbols == Some([]) ==> SymbolList(cfg) == Some("")
    ensures cfg.symbols.Some? && |cfg.symbols.value| >= 1
            && (forall k | 0 <= k < |cfg.symbols.value| :: ',' !in cfg.symbols.value[k]) ==>
              Split(SymbolList(cfg).value, ',') == cfg.symbols.value
  {
    if cfg.symbols.Some? && |cfg.symbols.value| >= 1
       && forall k | 0 <= k < |cfg.symbols.value| :: ',' !in cfg.symbols.value[k]
    {
      SplitJoin(cfg.symbols.value, ',');
    }
  }

  lemma ParseUrlAt(stem: string, query: string)
    requires '?' !in stem && '?' !in query
    ensures ParseUrl(stem + "?" + query) ==
              match ParseQuery(query)
              case None => None
              case Some(params) => Some((stem + "?", params))
  {
    SplitPrefix(stem, query, '?');
    SplitNoSep(query, '?');
  }

  /** The URL of a request gives back its endpoint and exactly the parameters of the wire contract, in order. */
  lemma ParseRequestUrl(cfg: Config, request: Request)
    requires request.IsRate() || request.IsConversion()
    ensures ParseUrl(RequestUrl(cfg, request)) == Some((Endpoint(request), Parameters(cfg, request)))
  {
    var e := Endpoint(request);
    var q := RequestQuery(cfg, request);
    EndpointSplits(request);
    var stem := e[..|e| - 1];
    assert RequestUrl(cfg, request) == stem + "?" + BuildQuery(q);
    ParseUrlAt(stem, BuildQuery(q));
    ParseBuildQuery(q);
    PresentQuery(cfg, request);
  }

  /** The request fields a URL depends on: the endpoint, the base, and, where they are sent, the amount, the quote and the date. */
  datatype Signature = Signature(
    endpoint: string,
    base: string,
    amount: Option<string>,
    quote: Option<string>,
    date: Option<string>)

  function UrlSignature(cfg: Config, request: Request): Signature
    requires request.IsRate() || request.IsConversion()
  {
    Signature(
      Endpoint(request),
      request.baseCurrency,
      if request.IsConversion() then Some(request.baseAmount) else None,
      if request.IsConversion() && !cfg.multiconversion then Some(request.quoteCurrency) else None,
      if request.IsHistorical() then Some(request.date) else None)
  }

  lemma SignatureFromParameters(cfg: Config, r1: Request, r2: Request)
    requires r1.IsRate() || r1.IsConversion()
    requires r2.IsRate() || r2.IsConversion()
    requires Endpoint(r1) == Endpoint(r2)
    requires Parameters(cfg, r1) == Parameters(cfg, r2)
    ensures UrlSignature(cfg, r1) == UrlSignature(cfg, r2)
  {
    var p1, p2 := Parameters(cfg, r1), Parameters(cfg, r2);
    assert r1.IsConversion() == r2.IsConversion() by {
      assert r1.IsConversion() <==> Endpoint(r1) == ConvertEndpoint;
      assert r2.IsConversion() <==> Endpoint(r2) == ConvertEndpoint;
    }
    assert p1[1] == p2[1];
    if r1.IsConversion() {
      assert p1[2] == p2[2];
      if !cfg.multiconversion {
        assert p1[3] == p2[3];
      }
    }
    assert |p1| == |p2|;
    assert r1.IsHistorical() == r2.IsHistorical();
    if r1.IsHistorical() {
      assert p1[|p1| - 1] == p2[|p2| - 1];
    }
  }

  /** Two requests build the same URL, and so share one cache entry, exactly when their signatures agree. */
  lemma SameUrlIffSameSignature(cfg: Config, r1: Request, r2: Request)
    requires r1.IsRate() || r1.IsConversion()
    requires r2.IsRate() || r2.IsConversion()
    ensures RequestUrl(cfg, r1) == RequestUrl(cfg, r2) <==> UrlSignature(cfg, r1) == UrlSignature(cfg, r2)
  {
    if RequestUrl(cfg, r1) == RequestUrl(cfg, r2) {
      ParseRequestUrl(cfg, r1);
      ParseRequestUrl(cfg, r2);
      SignatureFromParameters(cfg, r1, r2);
    }
    if UrlSignature(cfg, r1) == UrlSignature(cfg, r2) {
      assert r1.IsRate() <==> r2.IsRate() by {
        assert r1.IsRate() <==> Endpoint(r1) != ConvertEndpoint;
        assert r2.IsRate() <==> Endpoint(r2) != ConvertEndpoint;
      }
      assert RequestQuery(cfg, r1) == RequestQuery(cfg, r2);
    }
  }

  /** SHA-1 is taken to be collision-free, so one cache key stands for one URL. */
  lemma CacheKeyInjective(u1: string, u2: string)
    requires CacheKey(u1) == CacheKey(u2)
    ensures u1 == u2
  {
  }

  // ------------------------------------------------------------------ gating

  /** `supports` says in advance whether `send` would refuse the request; a refusal touches neither cache nor network. */
  lemma SupportsAgreesWithServe(cfg: Config, transport: Transport, cache: Cache, request: Request)
    ensures Supports(cfg, request) <==> request.IsRate() || (request.IsConversion() && cfg.subscription == Paid)
    ensures Supports(cfg, request) <==> Serve(cfg, transport, cache, request).outcome != Refused(request)
    ensures !Supports(cfg, request) ==> Serve(cfg, transport, cache, request) == Step(Refused(request), cache, [])
  {
  }

  // -------------------------------------------------------- cost of sending

  /**
   * Sending the same request twice from a warm cache, or after a reply that
   * gets stored, gives the same outcome and cache, with one HTTP call in all
   * at most. A reply that is not stored leaves nothing behind, so the
   * repeat calls the client again.
   */
  lemma ServeRepeat(cfg: Config, transport: Transport, cache: Cache, request: Request)
    requires Supports(cfg, request)
    ensures var url := RequestUrl(cfg, request);
            var s1 := Serve(cfg, transport, cache, request);
            var s2 := Serve(cfg, transport, s1.cache, request);
            (CacheHit(cache, url) || Storable(transport(url))) ==>
              && s2.outcome == s1.outcome
              && s2.cache == s1.cache
              && s1.calls + s2.calls == (if CacheHit(cache, url) then [] else [url])
    ensures var url := RequestUrl(cfg, request);
            var s1 := Serve(cfg, transport, cache, request);
            !CacheHit(cache, url) && !Storable(transport(url)) ==>
              && s1.cache == cache
              && Serve(cfg, transport, s1.cache, request).calls == [url]
  {
  }

  /** Requests that build the same URL share one fetch: once it is cached, the second costs no HTTP call. */
  lemma SameUrlSharesFetch(cfg: Config, transport: Transport, cache: Cache, r1: Request, r2: Request)
    requires Supports(cfg, r1) && Supports(cfg, r2)
    requires RequestUrl(cfg, r1) == RequestUrl(cfg, r2)
    requires CacheHit(cache, RequestUrl(cfg, r1)) || Storable(transport(RequestUrl(cfg, r1)))
    ensures var s1 := Serve(cfg, transport, cache, r1);
            var s2 := Serve(cfg, transport, s1.cache, r2);
            var payload := s1.cache[CacheKey(RequestUrl(cfg, r1))];
            && s2.calls == []
            && s2.cache == s1.cache
            && s2.outcome == if IsArray(payload) then Interpret(payload, r2) else Thrown(NotAnArray(payload))
  {
    var url := RequestUrl(cfg, r1);
    var first := Retrieve(transport, cache, url);
    assert CacheHit(first.cache, url);
    var second := Retrieve(transport, first.cache, url);
    assert second.calls == [] && second.cache == first.cache;
  }

  /** A request whose URL is new misses the cache left by another request and makes its own HTTP call. */
  lemma NewUrlFetchesAgain(cfg: Config, transport: Transport, cache: Cache, r1: Request, r2: Request)
    requires Supports(cfg, r1) && Supports(cfg, r2)
    requires RequestUrl(cfg, r1) != RequestUrl(cfg, r2)
    requires !CacheHit(cache, RequestUrl(cfg, r2))
    ensures var s1 := Serve(cfg, transport, cache, r1);
            Serve(cfg, transport, s1.cache, r2).calls == [RequestUrl(cfg, r2)]
  {
    var u1, u2 := RequestUrl(cfg, r1), RequestUrl(cfg, r2);
    assert CacheKey(u1) != CacheKey(u2) by {
      if CacheKey(u1) == CacheKey(u2) {
        CacheKeyInjective(u1, u2);
      }
    }
    var c1 := Retrieve(transport, cache, u1).cache;
    assert Serve(cfg, transport, cache, r1).cache == c1;
    assert !CacheHit(c1, u2);
  }

  /** Multiconversion: conversions of one amount from one base on one date share a fetch whatever their quote currencies. */
  lemma MulticonversionSharesFetch(cfg: Config, transport: Transport, cache: Cache, r1: Request, r2: Request)
    requires cfg.subscription == Paid && cfg.multiconversion
    requires r1.IsConversion() && r2.IsConversion()
    requires r1.baseAmount == r2.baseAmount && r1.baseCurrency == r2.baseCurrency
    requires r1.IsHistorical() == r2.IsHistorical()
    requires r1.IsHistorical() ==> r1.date == r2.date
    requires CacheHit(cache, RequestUrl(cfg, r1)) || Storable(transport(RequestUrl(cfg, r1)))
    ensures Serve(cfg, transport, Serve(cfg, transport, cache, r1).cache, r2).calls == []
  {
    SameUrlIffSameSignature(cfg, r1, r2);
    SameUrlSharesFetch(cfg, transport, cache, r1, r2);
  }

  /** The amount is part of the conversion query, so a different amount is a new fetch, in either mode. */
  lemma ConversionAmountFetchesAgain(cfg: Config, transport: Transport, cache: Cache, r1: Request, r2: Request)
    requires cfg.subscription == Paid
    requires r1.IsConversion() && r2.IsConversion()
    requires r1.baseAmount != r2.baseAmount
    ensures RequestUrl(cfg, r1) != RequestUrl(cfg, r2)
    ensures !CacheHit(cache, RequestUrl(cfg, r2)) ==>
              Serve(cfg, transport, Serve(cfg, transport, cache, r1).cache, r2).calls == [RequestUrl(cfg, r2)]
  {
    SameUrlIffSameSignature(cfg, r1, r2);
    if !CacheHit(cache, RequestUrl(cfg, r2)) {
      NewUrlFetchesAgain(cfg, transport, cache, r1, r2);
    }
  }

  /** Without multiconversion each quote currency is requested on its own, so a different quote is a new fetch. */
  lemma SingleConversionQuoteFetchesAgain(cfg: Config, transport: Transport, cache: Cache, r1: Request, r2: Request)
    requires cfg.subscription == Paid && !cfg.multiconversion
    requires r1.IsConversion() && r2.IsConversion()
    requires r1.quoteCurrency != r2.quoteCurrency
    ensures RequestUrl(cfg, r1) != RequestUrl(cfg, r2)
    ensures !CacheHit(cache, RequestUrl(cfg, r2)) ==>
              Serve(cfg, transport, Serve(cfg, transport, cache, r1).cache, r2).calls == [RequestUrl(cfg, r2)]
  {
    SameUrlIffSameSignature(cfg, r1, r2);
    if !CacheHit(cache, RequestUrl(cfg, r2)) {
      NewUrlFetchesAgain(cfg, transport, cache, r1, r2);
    }
  }

  /** Rate lookups never send the quote currency: any two with the same base (and date) share a fetch. */
  lemma RateUrlIgnoresQuote(cfg: Config, r1: Request, r2: Request)
    requires r1.IsRate() && r2.IsRate()
    requires r1.baseCurrency == r2.baseCurrency
    requires r1.IsHistorical() == r2.IsHistorical()
    requires r1.IsHistorical() ==> r1.date == r2.date
    ensures RequestUrl(cfg, r1) == RequestUrl(cfg, r2)
  {
  }
}
