/** Option and Result types shared by the model, and the Python exceptions the
    parameter engine can raise. */
module Wrappers {

  datatype Option<T> = None | Some(value: T) {
    /** The value, or `default` when there is none (Python's `dict.get(k, default)`). */
    function GetOr(default: T): T {
      if Some? then value else default
    }
  }

  /** The exceptions raised by the parameter engine. */
  datatype PyError =
    | AttributeError  // setting an undeclared attribute, reading a missing one
    | KeyError        // looking up an undeclared name in a schema table

  datatype Result<T> = Ok(value: T) | Err(error: PyError)
}
