/** Option/Result/Outcome wrappers and the Python exceptions the modelled code can raise. */
module Wrappers {

  datatype Option<+T> = None | Some(value: T) {
    function GetOr(default: T): T {
      match this
      case Some(v) => v
      case None => default
    }
  }

  /** The exceptions raised (and propagated uncaught) by the modelled functions. */
  datatype Error =
    | ValueError(message: string)   // tuple unpacking of a split without separator
    | KeyError(key: string)         // lookup of an unregistered loss prefix
    | IndexError                    // indexing an empty template list
    | RuntimeError(message: string) // no CLIP model selected
    | NameError(name: string)       // use of a name the module does not define

  /** Either a returned value or a raised exception. */
  datatype Result<+T> = Ok(value: T) | Err(error: Error)

  /** The outcome of a procedure that returns nothing but may raise. */
  datatype Outcome = Pass | Fail(error: Error)
}
