/** Option and the outcome of a Go call: a value, a returned error, a process exit or a panic. */
module Wrappers {

  datatype Option<+T> = None | Some(value: T)

  /** What a Go function ends with: it returns a value, returns a non-nil
      `error`, terminates the process with `os.Exit(1)` after printing a
      message, or panics (nil dereference, index out of range). */
  datatype Outcome<+T> =
    | Ok(value: T)
    | Err(error: string)
    | Exit(message: string)
    | Panic(reason: string)

  /** A failure handed on by a caller whose own result has another type. */
  function Propagate<A, B>(o: Outcome<A>): (r: Outcome<B>)
    requires !o.Ok?
    ensures !r.Ok?
    ensures o.Err? <==> r.Err?
    ensures o.Exit? <==> r.Exit?
    ensures o.Err? ==> r.error == o.error
    ensures o.Exit? ==> r.message == o.message
    ensures o.Panic? ==> r.reason == o.reason
  {
    match o
    case Err(e) => Err(e)
    case Exit(m) => Exit(m)
    case Panic(p) => Panic(p)
  }

  /** The runtime error texts of the two panics the command code can hit. */
  const IndexOutOfRange := "index out of range"
  const NilDereference := "invalid memory address or nil pointer dereference"
}
