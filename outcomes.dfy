/** Option, and the three ways a Rust call in infod can end: it returns `Ok`,
    it returns an `Err` through `?`, or it panics (an `unwrap`, an index out of
    bounds, an explicit `panic!`). */
module Outcomes {

  datatype Option<+T> = None | Some(value: T) {
    /** `unwrap_or` */
    function GetOr(default: T): T {
      match this
      case Some(v) => v
      case None => default
    }
  }

  /** The errors infod returns through `Result`. */
  datatype Error =
    | BadNumber       // u32::from_str_radix rejected a uid or gid field
    | UnexpectedEof   // read_exact reached the end of the stream
    | MalformedFrame  // serde_json could not decode an opened payload
    | Io              // an open, create, chmod, write, rename, accept, connect or send failed

  /** The reasons infod panics. */
  datatype Abort =
    | MissingField          // a record line has fewer fields than the parser indexes
    | AuthenticationFailed  // `decrypt(..).unwrap()` on a payload that does not open
    | InvalidFrame          // a frame the receiving role does not accept, or `None`

  /** The result of one Rust call; a failure-compatible type, so `:-` models `?`
      (and a panic unwinds through `:-` just as it unwinds through the Rust caller). */
  datatype Outcome<+T> = Ok(value: T) | Err(error: Error) | Panic(abort: Abort) {
    predicate IsFailure() {
      !Ok?
    }

    function PropagateFailure<U>(): (r: Outcome<U>)
      requires !Ok?
      ensures r.Err? == Err? && r.Panic? == Panic?
    {
      if Err? then Err(error) else Panic(abort)
    }

    function Extract(): T
      requires Ok?
    {
      value
    }

    /** The same ending with the value dropped. */
    function Discard(): (r: Outcome<()>)
      ensures r.Ok? == Ok?
      ensures Err? ==> r == Err(error)
      ensures Panic? ==> r == Panic(abort)
    {
      match this
      case Ok(_) => Ok(())
      case Err(e) => Err(e)
      case Panic(a) => Panic(a)
    }
  }
}
