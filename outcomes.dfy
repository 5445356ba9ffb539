/** Option and Result types shared by the whole model. `Error` names the Python
    exceptions that the modelled code can raise; a raised exception becomes `Err`. */
module Outcomes {

  datatype Option<+T> = None | Some(value: T)

  /** The exceptions the modelled code raises, by their Python names. */
  datatype Error =
    | KeyError(key: string)
    | IndexError(what: string)
    | TypeError(what: string)
    | AttributeError(what: string)
    | ZeroDivisionError
    | ValueError(what: string)

  datatype Result<+T> = Ok(value: T) | Err(error: Error)
}
