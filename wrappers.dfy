/** Values shared by every module: optional values, Go error values and call outcomes. */
module Wrappers {
  datatype Option<T> = None | Some(value: T)

  /**
   * A Go `error`. `Message` is a plain error (errors.New, xerrors.New, or
   * fmt.Errorf with `%v`, which flattens its argument into the text).
   * `Wrapped` is xerrors.Errorf with `%w`: same text, but the cause can be
   * recovered with Unwrap.
   */
  datatype Error = Message(text: string) | Wrapped(prefix: string, cause: Error)
  {
    /** err.Error() */
    function Text(): string
    {
      match this
      case Message(t) => t
      case Wrapped(p, c) => p + c.Text()
    }

    /** xerrors.Unwrap(err) */
    function Unwrap(): Option<Error>
    {
      if Wrapped? then Some(cause) else None
    }
  }

  /** fmt.Errorf(prefix + "%v", e): the text of `e` survives, the error itself does not. */
  function Flatten(prefix: string, e: Error): (r: Error)
    ensures r.Text() == prefix + e.Text()
    ensures r.Unwrap().None?
  {
    Message(prefix + e.Text())
  }

  /** xerrors.Errorf(prefix + "%w", e): the same text, and `e` stays reachable. */
  function Wrap(prefix: string, e: Error): (r: Error)
    ensures r.Text() == prefix + e.Text()
    ensures r.Unwrap() == Some(e)
  {
    Wrapped(prefix, e)
  }

  /** A Go `(value, error)` pair in which exactly one side is meaningful. */
  datatype Result<T> = Ok(value: T) | Err(error: Error)

  /**
   * What a call that may also bring the process down produces: a value, a
   * returned error, or an abort (a panic, or log.Fatal/log.Fatalf, which exit).
   */
  datatype Outcome<T> = Done(value: T) | Failed(error: Error) | Aborted(reason: string)

  /** The runtime panics the model distinguishes: a slice index past the end, and a nil pointer read. */
  const IndexOutOfRange := "index out of range"
  const NilDereference := "invalid memory address or nil pointer dereference"

  /** Lifts a returned `(value, error)` pair into an outcome. */
  function Lift<T>(r: Result<T>): (o: Outcome<T>)
    ensures r.Ok? <==> o.Done?
    ensures r.Ok? ==> o.value == r.value
    ensures r.Err? ==> o == Failed(r.error)
  {
    match r
    case Ok(v) => Done(v)
    case Err(e) => Failed(e)
  }
}
