/** The exceptions the wrapper raises, and the Option/Result shapes that carry them. */
module Errors {

  datatype Option<T> = None | Some(value: T)

  /** The Python exceptions the modelled code can raise. `InvalidStrip` carries the
      pixel count that was asked for and the one the strip has, as its message does. */
  datatype Error =
    | IndexError
    | ValueError
    | TypeError
    | RuntimeError(code: int)
    | InvalidStrip(requested: int, available: int)

  datatype Result<T> = Ok(value: T) | Err(error: Error)

  /** The result of an operation that returns nothing or raises. */
  datatype Outcome = Pass | Fail(error: Error)

  /** `begin` and `show` turn a nonzero status of the native driver into a
      RuntimeError carrying that status. */
  function NativeStatus(status: int): (r: Outcome)
    ensures r.Pass? <==> status == 0
    ensures r.Fail? ==> r.error == RuntimeError(status)
  {
    if status != 0 then Fail(RuntimeError(status)) else Pass
  }
}
