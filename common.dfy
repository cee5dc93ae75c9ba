/** Values shared by every component: optional values, results, and the
    errors the program produces or passes through. */
module Common {

  datatype Option<T> = None | Some(value: T)

  /** A Go `(value, error)` pair where exactly one side is meaningful. */
  datatype Result<T> = Ok(value: T) | Err(error: Error)

  /** The errors of the program. `External` stands for an error produced
      by code outside the model (SQLite, the network, the filesystem, the
      id generator); `Wrapped` is `fmt.Errorf("<context>%w", cause)`. */
  datatype Error =
    | InvalidActiveThreadIndex
    | BadLlmMessageIndex
    | InvalidMessageIndex
    | InvalidThreadIndex
    | InvalidConfig
    | ApiKeyNotSet
    | NoChoicesReturned
    | BufferTooSmall
    | Eof
    | ConfigNotFound
    | External(message: string)
    | Wrapped(context: string, cause: Error)

  /** The text `err.Error()` gives. */
  function Text(e: Error): string
  {
    match e
    case InvalidActiveThreadIndex => "invalid active thread index"
    case BadLlmMessageIndex => "bad llm message index: 0, should be at least 1"
    case InvalidMessageIndex => "invalid message index"
    case InvalidThreadIndex => "invalid thread index"
    case InvalidConfig => "invalid config: width and height must be greater than 0"
    case ApiKeyNotSet => "API key not set"
    case NoChoicesReturned => "no completion returned"
    case BufferTooSmall => "buffer too small"
    case Eof => "EOF"
    case ConfigNotFound => "config file not found"
    case External(message) => message
    case Wrapped(context, cause) => context + Text(cause)
  }

  /** `errors.Is(e, target)`: `target` is `e` or sits in its chain of causes. */
  predicate Is(e: Error, target: Error)
  {
    e == target || (e.Wrapped? && Is(e.cause, target))
  }

  function Min(a: int, b: int): int
  {
    if a <= b then a else b
  }
}
