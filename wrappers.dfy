/** Option and Result types shared by every module of the model. Python exceptions
    raised by the program become `Fail` values carrying the exception class and
    message; a caught exception becomes a branch on `Fail`. */
module Wrappers {

  datatype Option<T> = None | Some(value: T)
  {
    predicate IsSome() { Some? }
  }

  /** The exception classes the modelled code raises or catches. */
  datatype ErrorKind =
    | DynaTableError    // rbkcli.base.jsops.DynaTableError
    | RbkcliError       // rbkcli.base.RbkcliException and its subclasses
    | ApiHandlerError
    | ScriptError
    | ToolsError
    | KeyError          // Python built-ins
    | IndexError
    | TypeError
    | ValueError
    | RecursionError
    | AttributeError
    | UnboundLocalError
    | NameError
    | ApiRequesterError // rbkcli.base.RbkcliException.ApiRequesterError
    | BareException     // a plain `Exception(...)`
    | ZeroDivisionError

  datatype Error = Error(kind: ErrorKind, msg: string)

  datatype Result<T> = Ok(value: T) | Fail(error: Error)
  {
    predicate IsOk() { Ok? }
  }

  function Raise<T>(kind: ErrorKind, msg: string): Result<T>
  {
    Fail(Error(kind, msg))
  }
}
