/** Option and Result, and the failures that abort an export or an import run. */
module Wrappers {

  datatype Option<+T> = None | Some(value: T)
  {
    function GetOr(default: T): T
    {
      match this
      case Some(v) => v
      case None => default
    }
  }

  /** Why a run stopped. Every one of them propagates to the entry point unhandled. */
  datatype Failure =
    | HttpFailure(code: int)   // HTTPError from raise_for_status, carrying the status code
    | ConnectionFailure        // the transport delivered no response
    | DecodeFailure            // a success response whose non-empty text is not JSON
    | ShapeFailure             // TypeError, KeyError or AttributeError on a response that lacks the expected shape

  datatype Result<+T> = Ok(value: T) | Err(error: Failure)
}
