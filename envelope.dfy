/** The response envelope: `ApiResponse` on success, `ApiError` on failure. */
module Envelope {

  /** An `ApiError` a controller throws: its status code and message. */
  datatype ApiError = ApiError(status: int, msg: string)

  /** The `errors` field of an error body: nothing, a caught error, the text of one, or
      an error the database driver raised (a malformed id it could not cast, a negative
      skip), whose text the model does not fix. */
  datatype Cause = NoCause | Wrapped(inner: ApiError) | Detail(text: string) | DriverError

  /** What the client receives. `status` is the HTTP status of the response and
      `bodyStatus` the `statusCode` written in the JSON body; the two differ where a
      controller sets one and writes another. */
  datatype Outcome<T> =
    | Ok(status: int, bodyStatus: int, data: T, msg: string)
    | Err(status: int, bodyStatus: int, msg: string, cause: Cause)

  /** `res.status(s).json(new ApiResponse(s, data, msg))`. */
  function Reply<T>(status: int, data: T, msg: string): Outcome<T>
  {
    Ok(status, status, data, msg)
  }

  /** `throw new ApiError(s, msg)` reaching the client through the error handler. */
  function Fail<T>(status: int, msg: string): Outcome<T>
  {
    Err(status, status, msg, NoCause)
  }

  /** `new ApiError(s, msg, error)`: an error that carries the caught one. */
  function Wrap<T>(status: int, msg: string, inner: ApiError): Outcome<T>
  {
    Err(status, status, msg, Wrapped(inner))
  }

  /** `new ApiError(s, msg, error.message)`: an error that carries the text of the caught one. */
  function Explain<T>(status: int, msg: string, text: string): Outcome<T>
  {
    Err(status, status, msg, Detail(text))
  }

  /** An error of the database driver that no controller code catches: the error
      handler answers it with a 500 and the driver's own message. */
  function Crash<T>(): Outcome<T>
  {
    Err(500, 500, "", DriverError)
  }
}
