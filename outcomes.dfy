/** Values shared by the whole model: optional values and the Python
    exceptions the converter script can raise. */
module Outcomes {

  /** Python's `None` versus a present value. */
  datatype Option<+T> = None | Some(value: T)

  /** The exceptions the modelled code raises; an exception aborts the script,
      so no calendar file is written. */
  datatype PyError =
    | NameError(variable: string)  // a local never bound because its property record was missing
    | TypeError(variable: string)  // a property value of the wrong Python type
    | AttributeError(variable: string)  // `.replace` called on a value that has no such method
    | ValueError                   // datetime.timezone given an offset of a day or more

  /** The result of a Python call: a value, or the exception it raised. */
  datatype Outcome<+T> = Ok(value: T) | Raised(error: PyError)
}
