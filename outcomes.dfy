/** An optional value. */
module Options {
  datatype Option<T> = None | Some(value: T)
  {
    function GetOr(default: T): T
    {
      if Some? then value else default
    }
  }
}

/** The kinds of failure a service call ends with. */
module Errors {
  /** The Nest HTTP exception classes the services throw, by kind. */
  datatype ErrorKind = Conflict | BadRequest | NotFound | Unauthorized | Forbidden | InternalError

  /** Message of an exception that is not an HTTP exception, as Nest's default filter answers it. */
  const UnhandledMessage: string := "Internal server error"
}

/** Values every service call ends with. */
module Outcomes {
  import opened Errors

  /** A call either returns a value or throws an HTTP exception of some kind with a message. */
  datatype Outcome<T> = Ok(value: T) | Err(kind: ErrorKind, message: string)
  {
    predicate Fails(k: ErrorKind)
    {
      Err? && kind == k
    }
  }
}
