/** Failure-compatible results and dict helpers shared by the environment, the
    reward and the helpers. `Error` names the Python exceptions the modelled code
    can raise. */
module Outcomes {

  datatype Option<+T> = None | Some(value: T)

  /** The exceptions raised by the modelled code, each with the payload Python attaches. */
  datatype Error =
    | KeyError(key: string)
    | IndexError
    | TypeError(message: string)
    | ValueError(message: string)
    | NotImplementedError(message: string)
      /** Any other exception, such as one the controller raises, by class name. */
    | Raised(name: string, message: string)

  datatype Result<+T> = Ok(value: T) | Err(error: Error) {

    predicate IsFailure() {
      Err?
    }

    function PropagateFailure<U>(): Result<U>
      requires Err?
    {
      Err(error)
    }

    function Extract(): T
      requires Ok?
    {
      value
    }
  }

  /** A step's info dict: physical and economic quantities by name. */
  type InfoMap = map<string, real>

  /** `m.get(key, 0.0)`: a missing entry reads as zero. */
  function GetOrZero(m: map<string, real>, key: string): real
  {
    if key in m then m[key] else 0.0
  }
}
