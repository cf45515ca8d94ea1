/**
 * The HTTP boundary. Every call to the backend is replaced by the reply the
 * server gives: either the response body or an axios-style error carrying
 * the HTTP status and the error body, both absent when no response arrived
 * (timeout, unreachable host).
 */
module Http {
  import opened Wrappers

  /** The JSON body the backend sends with an error: `{ message }`. */
  datatype ErrorBody = ErrorBody(message: Option<string>)

  /** `error.response?.status` and `error.response?.data` of a rejected request. */
  datatype HttpError = HttpError(status: Option<int>, data: Option<ErrorBody>)

  /** What a request resolves with (`response.data`) or rejects with. */
  datatype Reply<+T> = Ok(data: T) | Fail(error: HttpError)

  const Unauthorized: int := 401

  /** JavaScript truthiness of an optional string: present and non-empty. */
  predicate Truthy(s: Option<string>) {
    s.Some? && s.value != ""
  }

  /** `s || fallback` for an optional string. */
  function OrDefault(s: Option<string>, fallback: string): (r: string)
    ensures Truthy(s) ==> r == s.value
    ensures !Truthy(s) ==> r == fallback
    ensures fallback != "" ==> r != ""
  {
    if Truthy(s) then s.value else fallback
  }

  /**
   * The pattern every API wrapper follows: resolve with `response.data`, or
   * `throw error.response?.data || { message: fallback }`.
   */
  function Settle<T>(reply: Reply<T>, fallback: string): (r: Result<T, ErrorBody>)
    ensures r.Success? <==> reply.Ok?
    ensures reply.Ok? ==> r.value == reply.data
    ensures reply.Fail? && reply.error.data.Some? ==> r.error == reply.error.data.value
    ensures reply.Fail? && reply.error.data.None? ==> r.error == ErrorBody(Some(fallback))
  {
    match reply
    case Ok(d) => Success(d)
    case Fail(e) => Failure(if e.data.Some? then e.data.value else ErrorBody(Some(fallback)))
  }

  /** The message a caller shows for a failed wrapper call: `err.message || fallback`. */
  function MessageOf(body: ErrorBody, fallback: string): (r: string)
    ensures fallback != "" ==> r != ""
  {
    OrDefault(body.message, fallback)
  }
}
