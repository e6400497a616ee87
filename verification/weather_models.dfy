/**
 service-d's wire models and the `From<WeatherApiResponse>` conversion that
 flattens the weather API's nested reply into the service's own response.
 */
module WeatherModels {

  /** An `f64` carried through untouched: only its bit pattern matters here. */
  datatype F64 = F64(bits: bv64)

  datatype WeatherApiLocationResponse = WeatherApiLocationResponse(name: string, region: string)

  datatype WeatherApiCurrentResponse = WeatherApiCurrentResponse(tempC: F64, tempF: F64)

  datatype WeatherApiResponse = WeatherApiResponse(location: WeatherApiLocationResponse, current: WeatherApiCurrentResponse)

  datatype WeatherResponse = WeatherResponse(city: string, state: string, celcius: F64, farenheight: F64)

  /** `WeatherResponse::from`: each field is copied from the API reply; the Fahrenheit value is not derived from Celsius. */
  function From(r: WeatherApiResponse): (w: WeatherResponse)
    ensures w.city == r.location.name
    ensures w.state == r.location.region
    ensures w.celcius == r.current.tempC
    ensures w.farenheight == r.current.tempF
  {
    WeatherResponse(
      celcius := r.current.tempC,
      farenheight := r.current.tempF,
      city := r.location.name,
      state := r.location.region)
  }

  /** The reverse reading of a response as the API reply it came from. */
  function ToApi(w: WeatherResponse): WeatherApiResponse {
    WeatherApiResponse(
      WeatherApiLocationResponse(name := w.city, region := w.state),
      WeatherApiCurrentResponse(tempC := w.celcius, tempF := w.farenheight))
  }

  /** The conversion loses nothing and invents nothing: `ToApi` inverts it on both sides. */
  lemma FromIsBijective(r: WeatherApiResponse, w: WeatherResponse)
    ensures ToApi(From(r)) == r
    ensures From(ToApi(w)) == w
  {
  }

  /** Two API replies that convert to the same response are the same reply. */
  lemma FromInjective(r1: WeatherApiResponse, r2: WeatherApiResponse)
    requires From(r1) == From(r2)
    ensures r1 == r2
  {
  }
}
