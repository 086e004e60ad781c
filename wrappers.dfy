/** Optional values (JavaScript's `null`/`undefined` next to a present value)
    and the outcome of an API request. */
module Wrappers {

  datatype Option<+T> = None | Some(value: T)

  /** Truthiness of an optional string in JavaScript: absent and `''` are both falsy. */
  predicate Truthy(s: Option<string>) {
    s.Some? && s.value != ""
  }

  /** What an awaited API request yields: a response with its HTTP status and
      body, or a thrown error (network failure, rejected promise). Both HTTP
      clients reject every answer outside 200-299 (axios's default status
      check, and the `!response.ok` throw of the plain-script client), so such
      an answer is `Threw`; a `Response` whose status is not 200 stands for
      another 2xx answer. */
  datatype Response<T> = Response(status: int, data: T) | Threw {
    predicate IsOk() {
      Response? && status == 200
    }
  }
}
