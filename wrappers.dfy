/** Plain Option, Result and Outcome wrappers used throughout the model: a missing
    value (a pandas NaN/NaT/NA) is `None`, an exception raised by the pipeline is an
    `Err`. */
module Wrappers {

  datatype Option<+T> = None | Some(value: T) {
    function GetOr(default: T): T {
      if Some? then value else default
    }
  }

  datatype Result<+T, +E> = Ok(value: T) | Err(error: E)

  datatype Outcome<+E> = Pass | Fail(error: E)
}
