/** Values the handlers receive from outside: optional request fields and
    the outcomes of awaited calls. */
module Results {

  /** A request field that may be absent (`undefined` in the request body). */
  datatype Option<T> = None | Some(value: T)
  {
    /** The value, or `default` when absent: JavaScript's `v ?? default`. */
    function GetOr(default: T): T
    {
      if Some? then value else default
    }
  }

  /** The outcome of an awaited call: the value it resolved to, or the
      `message` of the error it threw. */
  datatype Result<T> = Ok(value: T) | Err(message: string)
  {
    /** Forgets the value and keeps only whether the call succeeded. */
    function Status(): Result<()>
    {
      if Ok? then Ok(()) else Err(message)
    }
  }
}
