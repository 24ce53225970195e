/** Optional values, results and the Python exceptions the modelled code raises. */
module Wrappers {

  datatype Option<+T> = None | Some(value: T) {
    function GetOr(default: T): T {
      if Some? then value else default
    }
  }

  /** An exception that the modelled Python code raises instead of returning. */
  datatype Exception =
    | NotImplementedError
    | ValueError
    | AttributeError
    | IndexError
    | NativeContractException

  datatype Result<+T> = Success(value: T) | Failure(error: Exception)

  /** The outcome of a call that returns nothing but may raise. */
  datatype Outcome = Pass | Fail(error: Exception)
}
