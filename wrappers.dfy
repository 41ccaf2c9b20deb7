/** Option and Result, and the exceptions the application raises, as values. */
module Wrappers {

  datatype Option<+T> = None | Some(value: T) {
    function GetOr(default: T): T {
      match this
      case Some(v) => v
      case None => default
    }
  }

  /** The Python exception classes the modelled code raises or catches. */
  datatype Error =
    | ValueError(msg: string)
    | RuntimeError(msg: string)
      /** json.JSONDecodeError on the document at `path`; in Python a subclass of ValueError. */
    | JsonDecodeError(path: string)
      /** A call that Python would reject with a TypeError or AttributeError (wrong shape of a TOML value). */
    | TypeError(msg: string)
    | FileNotFoundError(msg: string)
      /** subprocess.CalledProcessError raised by a local subprocess (rsync). */
    | CalledProcessError(cmd: string)
      /** A missing key in a subscripted dictionary. */
    | KeyError(key: string)

  /** `except ValueError` also catches json.JSONDecodeError. */
  predicate IsValueError(e: Error) {
    e.ValueError? || e.JsonDecodeError?
  }

  datatype Result<+T> = Ok(value: T) | Err(error: Error) {
    predicate IsFailure() { Err? }
    function PropagateFailure<U>(): Result<U>
      requires Err?
    {
      Err(error)
    }
    function Extract(): T
      requires Ok?
    {
      value
    }
  }
}
