/** The weather service: a client holding an API key, whose three entry
    points each build a query for one kind of location and, unless the
    endpoint does not parse, start one request whose completion handler is
    called once with the classified outcome. The network is a parameter: the
    observation the transport delivers for a URL. */
module Service {
  import opened Wrappers
  import opened Weather
  import opened ServiceError
  import opened Query
  import opened Fetch

  /** The client; its key is fixed when it is created. */
  datatype WeatherService = WeatherService(appid: string)

  /** What one entry-point call does: it throws before any request is
      issued, or it issues a request for `url` and the completion handler
      receives `completions`, in order. */
  datatype Call = Threw(error: WeatherServiceError) | Issued(url: Components, completions: seq<Completion>)

  /** Starts the request for `url` at once and returns the completion
      handler's calls. */
  method FetchWeatherData(url: Components, transport: Components -> Observation,
                          decode: seq<uint8> -> Option<WeatherData>)
    returns (completions: seq<Completion>)
    ensures completions == [Classify(transport(url), decode)]
  {
    completions := CompletionCalls(transport(url), decode);
  }

  /** The steps all three entry points share, for one selector's items. */
  method Load(service: WeatherService, items: seq<QueryItem>, parses: string -> bool,
              transport: Components -> Observation, decode: seq<uint8> -> Option<WeatherData>)
    returns (call: Call)
    ensures call.Threw? <==> !parses(ApiUrl)
    ensures call.Threw? ==> call.error == InvalidBaseURL
    ensures call.Issued? ==> call.url == Components(ApiUrl, FixedItems(service.appid) + items)
    ensures call.Issued? ==> call.completions == [Classify(transport(call.url), decode)]
  {
    var components := GenerateURL(service.appid, items, parses);
    if components.Failure? {
      return Threw(components.error);
    }
    assert components.value.queryItems == components.value.queryItems[..2] + components.value.queryItems[2..];
    var completions := FetchWeatherData(components.value, transport, decode);
    return Issued(components.value, completions);
  }

  /** Weather for a city: the query is `appid`, `units=metric`, `q=<city>`. */
  method LoadWeatherByCity(service: WeatherService, city: string, parses: string -> bool,
                           transport: Components -> Observation, decode: seq<uint8> -> Option<WeatherData>)
    returns (call: Call)
    ensures call.Threw? <==> !parses(ApiUrl)
    ensures call.Threw? ==> call.error == InvalidBaseURL
    ensures call.Issued? ==>
              call.url == Components(ApiUrl, [QueryItem("appid", service.appid), QueryItem("units", "metric"),
                                              QueryItem("q", city)])
    ensures call.Issued? ==> Interpret(call.url.queryItems) == Some(Request(service.appid, "metric", City(city)))
    ensures call.Issued? ==> call.completions == [Classify(transport(call.url), decode)]
  {
    call := Load(service, SelectorItems(City(city)), parses, transport, decode);
    InterpretQueryItems(service.appid, City(city));
  }

  /** Weather at coordinates: the query is `appid`, `units=metric`, then
      `lat` and `lon` as formatted by `format`. */
  method LoadWeatherByCoordinates(service: WeatherService, coordinates: Coordinates, format: real -> string,
                                  parses: string -> bool, transport: Components -> Observation,
                                  decode: seq<uint8> -> Option<WeatherData>)
    returns (call: Call)
    ensures call.Threw? <==> !parses(ApiUrl)
    ensures call.Threw? ==> call.error == InvalidBaseURL
    ensures call.Issued? ==>
              call.url == Components(ApiUrl, [QueryItem("appid", service.appid), QueryItem("units", "metric"),
                                              QueryItem("lat", format(coordinates.lat)),
                                              QueryItem("lon", format(coordinates.lon))])
    ensures call.Issued? ==>
              Interpret(call.url.queryItems) ==
                Some(Request(service.appid, "metric", Coords(format(coordinates.lat), format(coordinates.lon))))
    ensures call.Issued? ==> call.completions == [Classify(transport(call.url), decode)]
  {
    var sel := CoordinatesSelector(coordinates, format);
    call := Load(service, SelectorItems(sel), parses, transport, decode);
    InterpretQueryItems(service.appid, sel);
  }

  /** Weather for a postal code: the query is `appid`, `units=metric`,
      `zip=<code>`. */
  method LoadWeatherByZipCode(service: WeatherService, zipCode: string, parses: string -> bool,
                              transport: Components -> Observation, decode: seq<uint8> -> Option<WeatherData>)
    returns (call: Call)
    ensures call.Threw? <==> !parses(ApiUrl)
    ensures call.Threw? ==> call.error == InvalidBaseURL
    ensures call.Issued? ==>
              call.url == Components(ApiUrl, [QueryItem("appid", service.appid), QueryItem("units", "metric"),
                                              QueryItem("zip", zipCode)])
    ensures call.Issued? ==> Interpret(call.url.queryItems) == Some(Request(service.appid, "metric", Zip(zipCode)))
    ensures call.Issued? ==> call.completions == [Classify(transport(call.url), decode)]
  {
    call := Load(service, SelectorItems(Zip(zipCode)), parses, transport, decode);
    InterpretQueryItems(service.appid, Zip(zipCode));
  }
}
