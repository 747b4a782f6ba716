/** Option and Result, used for JavaScript's "missing" values and thrown errors. */
module Wrappers {

  /** A JavaScript value that may be `undefined`/`null` (None) or present (Some). */
  datatype Option<+T> = None | Some(value: T) {
    function GetOr(default: T): T {
      match this
      case Some(v) => v
      case None => default
    }
  }

  /** A JSON property where `undefined` and `null` behave differently: absent
      (Missing), `null` (Null) or set (Present). */
  datatype Field<+T> = Missing | Null | Present(value: T)

  /** Why a fetch run was abandoned: the error an `async` function throws. */
  datatype Error =
    | NetworkRejected          // `fetch` itself rejected (no HTTP response)
    | HttpStatus(status: int)  // `HTTP error! status: …`
    | InvalidJson              // the body is not JSON
    | InvalidDataStructure     // a Grubhub page without `results` or `pager`
    | TypeError                // a property read on `undefined`/`null`
    | URIError                 // `decodeURIComponent` on a malformed escape
    | JsonSyntaxError          // `JSON.parse` of a stored string that is not JSON

  /** The outcome of code that either returns a value or throws. */
  datatype Result<+T> = Ok(value: T) | Err(error: Error)
}
