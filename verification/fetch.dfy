/** Outcome classification: what the completion handler of a weather request
    is called with, given what the transport observed. The transport, the
    asynchronous callback and JSON decoding are not modelled: the transport's
    observations are an input, and decoding is a function from the body bytes
    to an optional decoded value. */
module Fetch {
  import opened Wrappers
  import opened Weather
  import opened ServiceError

  newtype uint8 = x: int | 0 <= x < 0x100

  /** A transport-level failure (DNS, connection, TLS, timeout), opaque to
      the service. */
  datatype TransportError = TransportError(domain: string, code: int)

  /** A response as the transport hands it over: either an HTTP response or
      some other kind the service cannot interpret. */
  datatype URLResponse = HTTP(http: HTTPURLResponse) | NonHTTP

  /** The three optional values the transport delivers to the completion
      closure. */
  datatype Observation = Observation(
    data: Option<seq<uint8>>,
    response: Option<URLResponse>,
    error: Option<TransportError>)

  /** Swift's `Error` as the completion sees it: the transport's own error,
      passed on unwrapped, or one of the service's errors. */
  datatype FetchError = Transport(underlying: TransportError) | Service(error: WeatherServiceError)

  type Completion = Result<WeatherData, FetchError>

  /** The HTTP response, when the transport delivered one. */
  function AsHTTP(response: Option<URLResponse>): Option<HTTPURLResponse> {
    if response.Some? && response.value.HTTP? then Some(response.value.http) else None
  }

  /** When a completion value is the right one for an observation, stated per
      kind of value: each kind lists every condition it needs, including
      that no check of higher priority fired. */
  predicate Justified(obs: Observation, decode: seq<uint8> -> Option<WeatherData>, r: Completion) {
    var http := AsHTTP(obs.response);
    match r
    case Failure(Transport(e)) =>
      obs.error == Some(e)
    case Failure(Service(InvalidResponseError)) =>
      obs.error.None? && http.None?
    case Failure(Service(HTTPResponseError(resp))) =>
      obs.error.None? && http == Some(resp) && resp.statusCode != 200
    case Failure(Service(ParsingError)) =>
      obs.error.None? && http.Some? && http.value.statusCode == 200
      && (obs.data.None? || decode(obs.data.value).None?)
    case Failure(Service(InvalidBaseURL)) =>
      false
    case Success(w) =>
      obs.error.None? && http.Some? && http.value.statusCode == 200
      && obs.data.Some? && decode(obs.data.value) == Some(w)
  }

  /** The completion value for one observation, checking in order: transport
      error, non-HTTP response, status other than 200, missing or
      undecodable body. */
  function Classify(obs: Observation, decode: seq<uint8> -> Option<WeatherData>): (r: Completion)
    ensures Justified(obs, decode, r)
  {
    if obs.error.Some? then Failure(Transport(obs.error.value))
    else if AsHTTP(obs.response).None? then Failure(Service(InvalidResponseError))
    else
      var response := AsHTTP(obs.response).value;
      if response.statusCode != 200 then Failure(Service(HTTPResponseError(response)))
      else if obs.data.None? then Failure(Service(ParsingError))
      else
        match decode(obs.data.value)
        case None => Failure(Service(ParsingError))
        case Some(weatherData) => Success(weatherData)
  }

  /** Every observation has exactly one justified completion value: the one
      Classify picks. */
  lemma {:induction false} JustifiedIsClassify(obs: Observation, decode: seq<uint8> -> Option<WeatherData>, r: Completion)
    ensures Justified(obs, decode, r) <==> r == Classify(obs, decode)
  {
  }

  /** A transport error is passed on as it is, whatever else was observed. */
  lemma TransportErrorFirst(e: TransportError, data: Option<seq<uint8>>, response: Option<URLResponse>,
                            decode: seq<uint8> -> Option<WeatherData>)
    ensures Classify(Observation(data, response, Some(e)), decode) == Failure(Transport(e))
  {
  }

  /** Without a transport error, a missing or non-HTTP response is an invalid
      response, whatever the body. */
  lemma NonHTTPIsInvalidResponse(data: Option<seq<uint8>>, response: Option<URLResponse>,
                                 decode: seq<uint8> -> Option<WeatherData>)
    requires response.None? || response.value.NonHTTP?
    ensures Classify(Observation(data, response, None), decode) == Failure(Service(InvalidResponseError))
  {
  }

  /** A status other than 200 is reported with its response, never as a
      parsing error, even when the body would decode. */
  lemma StatusBeforeBody(data: Option<seq<uint8>>, resp: HTTPURLResponse,
                         decode: seq<uint8> -> Option<WeatherData>)
    requires resp.statusCode != 200
    ensures Classify(Observation(data, Some(HTTP(resp)), None), decode) == Failure(Service(HTTPResponseError(resp)))
  {
  }

  /** Models the completion closure statement by statement: each guard that
      fails calls the handler once and returns at once. The result lists the
      handler's calls in order. */
  method CompletionCalls(obs: Observation, decode: seq<uint8> -> Option<WeatherData>)
    returns (calls: seq<Completion>)
    ensures |calls| == 1
    ensures calls[0] == Classify(obs, decode)
  {
    calls := [];
    if obs.error.Some? {
      calls := calls + [Failure(Transport(obs.error.value))];
      return;
    }
    if obs.response.None? || !obs.response.value.HTTP? {
      calls := calls + [Failure(Service(InvalidResponseError))];
      return;
    }
    var response := obs.response.value.http;
    if response.statusCode != 200 {
      calls := calls + [Failure(Service(HTTPResponseError(response)))];
      return;
    }
    if obs.data.None? || decode(obs.data.value).None? {
      calls := calls + [Failure(Service(ParsingError))];
      return;
    }
    var weatherData := decode(obs.data.value).value;
    calls := calls + [Success(weatherData)];
  }
}
