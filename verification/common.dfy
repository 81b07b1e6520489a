/**
 * Value wrappers shared by the whole model: optional values, the three
 * states of a JSON property in a request body, and the outcome of a call
 * to the remote API.
 */
module Common {

  datatype Option<T> = None | Some(value: T)

  /**
   * A property of a JSON request body: left out of the object, sent as an
   * explicit `null`, or sent with a value.
   */
  datatype Field<T> = Absent | Null | Present(value: T)

  /**
   * Why a remote call failed: an `ApiClientError` carrying the HTTP status
   * and the message derived from the response, any other `Error` (a
   * network failure, a body that is not JSON) with its own message, or a
   * thrown value that is not an `Error` at all.
   */
  datatype Failure = ApiFailure(status: int, message: string) | OtherFailure(message: string) | NonError

  /** `err instanceof Error ? err.message : fallback`. */
  function FailureMessage(f: Failure, fallback: string): (r: string)
    ensures f.NonError? ==> r == fallback
    ensures !f.NonError? ==> r == f.message
  {
    if f.NonError? then fallback else f.message
  }

  /** The settled outcome of a remote call. */
  datatype Remote<T> = Ok(value: T) | Fail(failure: Failure)

  /** One page of a server-paged list and the size of the whole list. */
  datatype PageOf<T> = PageOf(items: seq<T>, totalCount: int)

  /** Where the router was told to go, if anywhere. */
  datatype Navigation = Stay | Push(path: string) | Replace(path: string)
}
