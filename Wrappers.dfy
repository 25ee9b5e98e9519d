/** Option and Result: Go's nil pointers and (value, error) pairs. */
module Wrappers {

  /** A value that may be absent (a nil pointer in the source). */
  datatype Option<+T> = None | Some(value: T) {
    function GetOr(default: T): T {
      match this
      case Some(v) => v
      case None => default
    }
  }

  /** A value or the error the source returns in its place. */
  datatype Result<+T, +E> = Ok(value: T) | Err(error: E)
}

/** Terraform diagnostics. Every diagnostic the core produces has error severity. */
module Diagnostics {

  datatype Diag = Diag(summary: string, detail: string)

  /** `diag.Errorf`: an error with a summary and no detail. */
  function Errorf(summary: string): Diag {
    Diag(summary, "")
  }
}
