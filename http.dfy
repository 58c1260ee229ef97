/**
 * What the HTTP clients of the bot have in common: error values and the
 * outcome of one request, which the model takes as an input.
 */
module Http {
  import opened Wrappers
  import Text

  /** An error value: its text, and whether its chain holds a net.Error or context.DeadlineExceeded. */
  datatype Failure = Failure(message: string, network: bool, deadline: bool)

  /**
   * One HTTP exchange: no response at all, or a status code with a body that
   * decodes (Some) or does not (None). A request that gets no response fails
   * inside http.Client.Do, whose errors are all *url.Error values and so
   * net.Error values; whether context.DeadlineExceeded lies behind it is an
   * input.
   */
  datatype Reply<T> = NoResponse(message: string, deadline: bool) | Response(code: int, body: Option<T>)
  {
    /** The error http.Client.Do returns when there is no response. */
    function Cause(): (f: Failure)
      requires NoResponse?
      ensures f.network && f.deadline == deadline
    {
      Failure(message, true, deadline)
    }
  }

  const StatusOk: int := 200
  const StatusCreated: int := 201
  const StatusUnauthorized: int := 401
  const StatusBadRequest: int := 400
  const StatusNotFound: int := 404
  const StatusTooManyRequests: int := 429
  const StatusInternalServerError: int := 500

  /** `fmt.Errorf("unexpected status code: %d", code)`. */
  function StatusFailure(code: int): Failure
  {
    Failure("unexpected status code: " + Text.IntToString(code), false, false)
  }

  /** `fmt.Errorf(prefix + "%w", f)`: new text, same chain. */
  function Wrap(prefix: string, f: Failure): Failure
  {
    Failure(prefix + f.message, f.network, f.deadline)
  }

  /** A decoding error; the decoder's own text is not modelled. */
  const DecodeFailure: Failure := Failure("failed to decode response", false, false)
}
