/** Error reporting of the request compiler: the QueryError codes it sets
    and a failure-compatible result type for operations that can fail. */
module Errors {

  /** The QUERY_E* codes the compiler reports. */
  datatype ErrorCode =
    | EParseArgs    // malformed or missing arguments
    | ELimit        // a numeric limit was exceeded
    | EInval        // semantically invalid option combination
    | EBadVal       // a value the engine cannot honour
    | ENoPropKey    // a referenced property cannot be resolved
    | EDupField     // a destination name is declared twice
    | EMismatch     // the request does not match the index
    | ENoReducer    // unknown reducer function

  datatype QueryError = QueryError(code: ErrorCode, msg: string)

  datatype Option<+T> = None | Some(value: T) {
    function GetOr(default: T): T {
      match this
      case Some(v) => v
      case None => default
    }
  }

  datatype Result<+T> = Ok(value: T) | Err(error: QueryError) {
    predicate IsFailure() {
      Err?
    }

    function PropagateFailure<U>(): Result<U>
      requires Err?
    {
      Err(error)
    }

    function Extract(): T
      requires Ok?
    {
      value
    }
  }

  function Fail<T>(code: ErrorCode, msg: string): Result<T> {
    Err(QueryError(code, msg))
  }
}
