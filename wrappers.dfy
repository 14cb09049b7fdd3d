/** Failure-carrying results shared by every module of the model. */
module Wrappers {

  /** The Python exceptions the modelled code can raise. */
  datatype Error =
    | IndexError         // a list indexed past its end
    | KeyError           // a dictionary looked up at a missing key
    | ValueError         // an out-of-range argument to datetime.time
    | ZeroDivisionError  // a division by zero

  datatype Option<T> = None | Some(value: T)

  datatype Result<T> = Ok(value: T) | Err(error: Error)

  /** How a procedure that returns None in Python ended: normally, or by raising. */
  datatype Outcome = Done | Raised(error: Error)
}
