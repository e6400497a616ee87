/**
 service-d's `GET /weather` handler: the APM-gated inbound trace read, the
 `zip` default, the weather API URL, the classification of the API's reply
 (no placeholder for any status) and the conversion to the service's model.
 */
module ServiceD {
  import opened Wrappers
  import opened Http
  import opened Trace
  import opened Downstream
  import opened WeatherModels

  const DEFAULT_ZIP := "76262"

  /** The APM flag and the values of `WEATHER_API_URL` and `WEATHER_API_KEY`. */
  datatype Config = Config(hasApm: bool, weatherApiUrl: string, weatherApiKey: string)

  /** The zip code queried: the `zip` query value, or "76262" without one. */
  function Zip(zip: Option<string>): (z: string)
    ensures zip.Some? ==> z == zip.value
    ensures zip.None? ==> z == DEFAULT_ZIP
  {
    zip.GetOr(DEFAULT_ZIP)
  }

  function WeatherUrl(host: string, zip: string, key: string): Url {
    host + "/current.json?q=" + zip + "&key=" + key
  }

  /**
   The handler: a panic when APM is on and `traceparent` is missing or
   unreadable, before any request; otherwise one request to the weather API
   whose reply is classified with no 504 placeholder and converted by `From`.
   */
  function Handler(cfg: Config, headers: HeaderMap, zip: Option<string>,
                   send: Url -> Outcome<WeatherApiResponse>): (h: Handled<WeatherResponse>)
    ensures h.Panicked? <==> cfg.hasApm && !TraceparentReadable(headers)
    ensures h.Served? ==> (h.carrier.Some? <==> cfg.hasApm)
    ensures h.Served? && cfg.hasApm ==>
              && TRACEPARENT in headers && ToStr(headers[TRACEPARENT]).Some?
              && h.carrier == Some(map[TRACEPARENT := ToStr(headers[TRACEPARENT]).value])
    ensures h.Served? ==>
              var url := cfg.weatherApiUrl + "/current.json?q=" + Zip(zip) + "&key=" + cfg.weatherApiKey;
              var o := send(url);
              var r := h.exchange.result;
              && h.exchange.requests == [url]
              && (o.TransportError? ==> r == Err(INTERNAL_SERVER_ERROR))
              && (o.Response? && IsSuccess(o.status) && o.body.Parsed? ==> r == Ok(From(o.body.value)))
              && (o.Response? && IsSuccess(o.status) && o.body.Malformed? ==> r == Err(BAD_REQUEST))
              && (o.Response? && !IsSuccess(o.status) ==> r == Err(BAD_REQUEST))
  {
    match InboundCarrier(cfg.hasApm, headers)
    case Panic => Panicked
    case Proceed(carrier) =>
      var url := WeatherUrl(cfg.weatherApiUrl, Zip(zip), cfg.weatherApiKey);
      Served(carrier, Exchange([url], Classify(send(url), None).MapOk(From)))
  }

  /** With APM off the headers are never consulted and the handler never panics. */
  lemma HeadersIgnoredWithoutApm(cfg: Config, h1: HeaderMap, h2: HeaderMap, zip: Option<string>,
                                 send: Url -> Outcome<WeatherApiResponse>)
    requires !cfg.hasApm
    ensures Handler(cfg, h1, zip, send) == Handler(cfg, h2, zip, send)
    ensures Handler(cfg, h1, zip, send).Served?
  {
  }

  /** Unlike service-b's call to A, a 504 from the weather API is an ordinary failure. */
  lemma GatewayTimeoutIsRejected(cfg: Config, headers: HeaderMap, zip: Option<string>,
                                 send: Url -> Outcome<WeatherApiResponse>)
    requires var o := send(WeatherUrl(cfg.weatherApiUrl, Zip(zip), cfg.weatherApiKey));
             o.Response? && o.status == GATEWAY_TIMEOUT
    requires Handler(cfg, headers, zip, send).Served?
    ensures Handler(cfg, headers, zip, send).exchange.result == Err(BAD_REQUEST)
  {
  }

  predicate NoAmpersand(s: string) {
    forall i :: 0 <= i < |s| ==> s[i] != '&'
  }

  /**
   For zip codes without '&', the formatted URL string determines the zip code and the key:
   the first '&' after the zip's start marks where the zip ends.
   */
  lemma WeatherUrlInjective(host: string, z1: string, k1: string, z2: string, k2: string)
    requires NoAmpersand(z1) && NoAmpersand(z2)
    requires WeatherUrl(host, z1, k1) == WeatherUrl(host, z2, k2)
    ensures z1 == z2 && k1 == k2
  {
    var u := WeatherUrl(host, z1, k1);
    var n := |host| + 16;
    assert u[n..n + |z1|] == z1 && u[n + |z1|] == '&';
    assert u[n..n + |z2|] == z2 && u[n + |z2|] == '&';
    assert |z1| == |z2|;
    assert z1 == z2;
    assert u[n + |z1| + 5..] == k1;
    assert u[n + |z2| + 5..] == k2;
  }

  /**
   The zip is spliced into the query unencoded, so any zip carrying "&key="
   yields the same URL as the shorter zip with the rest moved into the key.
   */
  lemma WeatherUrlAmbiguous(host: string, z1: string, z2: string, k: string)
    ensures WeatherUrl(host, z1 + "&key=" + z2, k) == WeatherUrl(host, z1, z2 + "&key=" + k)
  {
  }
}
