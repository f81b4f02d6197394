/** Errors the sensor and logger code raises, and the values that carry them
    back to the caller in place of Python exceptions. */
module Outcomes {

  /** The message every sensor class gives its SensorConfigError. */
  const MissingSettingMessage: string := "YAML missing required sensor setting"

  datatype Error =
    /** databear.errors.SensorConfigError: a required setting is absent. */
    | SensorConfigError(message: string)
    /** Python's KeyError: a dictionary was indexed by a key it lacks. */
    | KeyError(key: string)

  datatype Option<T> = None | Some(value: T)

  /** The outcome of an operation that returns a value or raises. */
  datatype Result<T> = Success(value: T) | Failure(error: Error)

  /** The outcome of an operation that returns nothing or raises. */
  datatype Outcome = Pass | Fail(error: Error)
}
