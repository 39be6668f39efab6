/** Shared plumbing of the services: optional values, the exceptions they throw,
    the metric events they emit and the storage failures they may meet. */
module Common {

  datatype Option<+T> = None | Some(value: T)

  /** The exceptions the core throws. The first three are the framework's HTTP
      exceptions; `PlainError` is a bare JavaScript `Error`, which the framework
      answers with status 500. */
  datatype Error =
    | Unauthorized(message: string)
    | Forbidden(message: string)
    | InternalServerError(message: string)
    | PlainError(message: string)

  /** A call either returns a value or throws. */
  datatype Result<+T> = Ok(value: T) | Err(error: Error)

  /** One call into the metrics sink, which only counts named events. */
  datatype Metric = Increment(name: string) | Decrement(name: string)

  /** The outcome of a service call together with the metric events it emitted, in order. */
  datatype Logged<+T> = Logged(result: Result<T>, metrics: seq<Metric>)

  /** JavaScript truthiness of an optional string: `undefined`, `null` and `""` are falsy. */
  predicate Truthy(s: Option<string>)
  {
    s.Some? && s.value != ""
  }

  /** Which storage query of one service call fails, if any. Queries are numbered
      0, 1, 2, ... in the order the call issues them; the failing one raises the
      driver's error with the given message. */
  datatype StorageFault = NoFault | FailsAt(query: nat, message: string)

  predicate Fails(fault: StorageFault, query: nat)
  {
    fault.FailsAt? && fault.query == query
  }
}
