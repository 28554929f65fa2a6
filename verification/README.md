# SmolWeatherLib in Dafny

A model of the core of SmolWeatherLib, a small Swift client for the
OpenWeatherMap "current weather" endpoint. A `WeatherService` holds an API key
(`appid`). Its three `loadWeather` entry points name a location by city, by
coordinates or by postal code. Each one builds the request URL with
`generateURL`: the fixed endpoint, then the query items `appid=<key>`,
`units=metric` and the selector's own items, in that order. If the endpoint
string does not parse, the call throws `invalidBaseURL` and no request starts.
Otherwise the request starts at once. Its completion closure calls the
handler exactly once, with the first outcome that applies:

1. the transport's own error, unwrapped;
2. `invalidResponseError` when the response is missing or not HTTP;
3. `HTTPResponseError` carrying the HTTP response when its status is not 200;
4. `parsingError` when the body is missing or does not decode;
5. success with the decoded `WeatherData`.

Modules:

- `Wrappers` (`wrappers.dfy`): `Option` and `Result`.
- `Weather` (`weather.dfy`): the decoded records and `Coordinates`.
- `ServiceError` (`service_error.dfy`): `WeatherServiceError` and the HTTP response it carries.
- `Query` (`query.dfy`): the selector items, `GenerateURL`, and `Interpret`. `Interpret` is a reference reading of a query: each parameter is taken from its first occurrence. The round-trip lemmas prove that a built query reads back as exactly what it was built from.
- `Fetch` (`fetch.dfy`): `Classify`, the completion value. `Justified` is a per-outcome statement of when a value is the right one; the lemmas prove that `Classify` picks the only justified value. `CompletionCalls` models the closure statement by statement and proves that the handler is called exactly once.
- `Service` (`service.dfy`): the client and its three entry points. A call either throws or issues one request whose handler receives one value.

Three details of the code that the model keeps:

- The HTTP error carries the `HTTPURLResponse`, and so its status code, but not the response body (`WeatherService.swift:8`, `:69`).
- The transport error is handed to the caller as it is, not wrapped in a service error (`WeatherService.swift:59`).
- Humidity and wind direction get no range check. They are limited only by their Swift types, `Int8` and `Int16` (`Weather.swift:9`, `:18`).

## Model

| member | source | states |
|---|---|---|
| Query.SelectorItems | Sources/SmolWeatherLib/WeatherService.swift:20-53 | a city or a postal code contributes one item and coordinates contribute two; every item uses one of the selector's own parameter names |
| Query.CoordinatesSelector | Sources/SmolWeatherLib/WeatherService.swift:31-38 | selecting by coordinates sends exactly two items: `lat` with the formatted latitude, then `lon` with the formatted longitude |
| Query.GenerateURL | Sources/SmolWeatherLib/WeatherService.swift:87-106 | it fails with `InvalidBaseURL` exactly when the endpoint does not parse; otherwise the URL is the fixed endpoint, and its query is `appid=<key>`, then `units=metric`, then exactly the given items in order |
| Query.InterpretQueryItems | Sources/SmolWeatherLib/WeatherService.swift:92-103 | reading a built query back by first occurrence gives the key, `metric` and the selector it was built from |
| Query.QueryItemsHaveNoOtherParameters | Sources/SmolWeatherLib/WeatherService.swift:101-103 | a built query holds no parameter besides `appid`, `units` and the selector's own |
| Query.QueryItemsInjective | Sources/SmolWeatherLib/WeatherService.swift:101-102 | two queries are equal only if they were built from the same key and the same selector |
| Fetch.Classify | Sources/SmolWeatherLib/WeatherService.swift:57-81 | the value the handler receives meets the conditions of its kind: the transport's own error when there is one; invalid response when the response is missing or not HTTP; the HTTP error with that response when the status is not 200; a parsing error when the body is missing or undecodable; otherwise success with the decoded value |
| Fetch.JustifiedIsClassify | Sources/SmolWeatherLib/WeatherService.swift:57-81 | for every observation, a completion value meets those conditions if and only if it is the one `Classify` returns, so exactly one outcome applies |
| Fetch.TransportErrorFirst | Sources/SmolWeatherLib/WeatherService.swift:58-61 | a transport error is passed on unchanged, whatever the response and the body |
| Fetch.NonHTTPIsInvalidResponse | Sources/SmolWeatherLib/WeatherService.swift:63-66 | without a transport error, a missing or non-HTTP response gives an invalid-response error, whatever the body |
| Fetch.StatusBeforeBody | Sources/SmolWeatherLib/WeatherService.swift:68-71 | a status other than 200 gives the HTTP error with that response, even when the body would decode |
| Fetch.CompletionCalls | Sources/SmolWeatherLib/WeatherService.swift:57-81 | the closure calls the handler exactly once, with the classified value |
| Service.FetchWeatherData | Sources/SmolWeatherLib/WeatherService.swift:56-85 | fetching a URL calls the handler once, with the classification of what the transport observed for that URL |
| Service.Load | Sources/SmolWeatherLib/WeatherService.swift:25-27 | an entry point throws `InvalidBaseURL`, and issues no request, exactly when the endpoint does not parse; otherwise it requests the endpoint with the fixed items and then the selector's items, and the handler is called once |
| Service.LoadWeatherByCity | Sources/SmolWeatherLib/WeatherService.swift:20-28 | throws exactly when the endpoint does not parse; otherwise the request goes to the fixed endpoint with exactly the query `appid`, `units=metric`, `q=<city>`, it reads back as that city, and the handler is called once with the classified outcome |
| Service.LoadWeatherByCoordinates | Sources/SmolWeatherLib/WeatherService.swift:30-43 | throws exactly when the endpoint does not parse; otherwise the request goes to the fixed endpoint with exactly the query `appid`, `units=metric`, `lat`, `lon`, it reads back as those coordinates, and the handler is called once with the classified outcome |
| Service.LoadWeatherByZipCode | Sources/SmolWeatherLib/WeatherService.swift:45-53 | throws exactly when the endpoint does not parse; otherwise the request goes to the fixed endpoint with exactly the query `appid`, `units=metric`, `zip=<code>`, it reads back as that code, and the handler is called once with the classified outcome |

## Left out

- `URLSession.shared`, `dataTask`, `resume()` and the asynchronous delivery of the callback are networking and concurrency. The transport is a parameter that maps a URL to the data, response and error it delivers. The handler's calls are returned as a sequence.
- `JSONDecoder` and the synthesized `Decodable` conformance of the records in `Weather.swift` are a foreign library. Decoding is a parameter from body bytes to an optional `WeatherData`.
- `URLComponents` parsing, percent-encoding and the forced unwrap of `components.url` are foreign. A URL is its base string plus its ordered query items. Whether the base string parses is a parameter. The crash the forced unwrap would cause if no URL could be formed is not modelled.
- `String(Float)` formatting of coordinates is floating point. The formatter is a parameter.
- Swift's `Double` and `Float` fields are modelled as `real`. IEEE rounding is not modelled.
- `HTTPURLResponse` is reduced to its status code. Its headers, URL and the other fields the HTTP error carries are not modelled.
- A transport error is reduced to a domain and a code.
