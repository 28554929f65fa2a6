/** The errors the weather service raises itself (as opposed to the transport
    errors it passes through unchanged). */
module ServiceError {

  /** The part of an HTTP response the model observes. The service keeps the
      whole response in its error, not the body. */
  datatype HTTPURLResponse = HTTPURLResponse(statusCode: int)

  datatype WeatherServiceError =
    | InvalidBaseURL
    | ParsingError
    | InvalidResponseError
    | HTTPResponseError(response: HTTPURLResponse)
}
