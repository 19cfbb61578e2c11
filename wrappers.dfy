/** Option and Result, the shapes the model uses for JavaScript's
    null/undefined values and for thrown errors. */
module Wrappers {

  datatype Option<+T> = None | Some(value: T) {
    /** The value, or `default` when there is none (JavaScript's `??`). */
    function GetOr(default: T): T {
      match this
      case Some(v) => v
      case None => default
    }
  }

  datatype Result<+T, +E> = Ok(value: T) | Err(error: E)

  /** Outcome of an outbound HTTP call: either a response or a network failure
      (the promise returned by `fetch` rejects). */
  datatype HttpOutcome<+T> = Response(status: int, body: T) | NetworkFailure {
    /** `res.ok`: a status in the range 200-299. */
    predicate IsOk() {
      Response? && 200 <= status <= 299
    }
  }

  /** An outbound request: path, query parameters and headers. */
  datatype HttpRequest = HttpRequest(url: string, query: seq<(string, string)>, headers: seq<(string, string)>)
}
