/** What one submission of either form can come back with. The HTTP client, the
    server and the base URL are not modelled: a submit handler receives the
    outcome of its POST as a value. */
module Requests {

  datatype Option<+T> = None | Some(value: T)

  /** Why the awaited POST rejected: the server answered with an error status
      (`error.response` is set), or no response arrived at all. */
  datatype RequestError = HttpError(status: int) | NoResponse {

    /** `error.response.status`, absent when there was no response. */
    function Status(): (s: Option<int>)
      ensures s.Some? <==> HttpError?
      ensures HttpError? ==> s.value == status
    {
      match this
      case HttpError(status) => Some(status)
      case NoResponse => None
    }
  }

  /** The result of awaiting one POST: the response body, or the rejection. */
  datatype Outcome = Success(data: string) | Failed(error: RequestError)

  /** The one status both forms single out: 401. */
  const Unauthorized: int := 401
}
