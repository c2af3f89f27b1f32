/** Go error values as the providers, the facade and the web handler build them: `errors.New`-like leaves,
    `fmt.Errorf` with `%s`/`%v` (which flattens the cause into the text) and
    `fmt.Errorf` with `%w` (which keeps the cause reachable by `errors.Unwrap`). */
module Errors {
  import opened Wrappers

  datatype Error =
    | Plain(msg: string)                     // no cause attached
    | Wrapped(prefix: string, cause: Error)  // `fmt.Errorf(prefix + "%w", cause)`

  /** The text `err.Error()` returns. */
  function Message(e: Error): string
  {
    match e
    case Plain(m) => m
    case Wrapped(p, c) => p + Message(c)
  }

  /** `errors.Unwrap`. */
  function Unwrap(e: Error): Option<Error>
  {
    match e
    case Plain(_) => None
    case Wrapped(_, c) => Some(c)
  }

  /** `errors.Is`: the target is the error itself or somewhere in its cause chain.
      Errors are compared as values here, while Go compares the pointers that
      `errors.New` and `fmt.Errorf` return, so two distinct Go errors with the
      same text are related by this predicate but not by `errors.Is`: the model
      over-approximates. */
  predicate Is(e: Error, target: Error)
  {
    e == target || (e.Wrapped? && Is(e.cause, target))
  }

  /** `fmt.Errorf(prefix + "%s", cause)`: only the text of the cause survives. */
  function Errorf(prefix: string, cause: Error): (r: Error)
    ensures Message(r) == prefix + Message(cause)
    ensures Unwrap(r) == None
  {
    Plain(prefix + Message(cause))
  }

  /** `fmt.Errorf(prefix + "%w", cause)`: the cause stays in the chain. */
  function Wrapf(prefix: string, cause: Error): (r: Error)
    ensures Message(r) == prefix + Message(cause)
    ensures Unwrap(r) == Some(cause)
    ensures Is(r, cause)
  {
    Wrapped(prefix, cause)
  }
}
