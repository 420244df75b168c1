/** Values that travel over the IPC channels of the terminal multiplexer, and the
    error context that accompanies each of them. The instruction vocabularies and
    the internals of ErrorContext and PositionAndSize live in modules outside this
    model; only the parts used by the OS layer are spelled out. */
module Instructions {

  datatype Option<T> = None | Some(value: T)

  /** The trace of recent call sites carried alongside every message. Only
      `ErrorContext::new()` and copying by value are used by the OS layer, so its
      entries are opaque call-site identifiers, and the trace's fixed capacity
      (oldest entries evicted) is not modelled: the sequence is unbounded. */
  datatype ErrorContext = ErrorContext(calls: seq<nat>)

  /** `ErrorContext::new()`: the context with no recorded calls. */
  function NewErrorContext(): ErrorContext
  {
    ErrorContext([])
  }

  /** Terminal geometry as the pane layer describes it (opaque to this layer). */
  datatype PositionAndSize = PositionAndSize(x: nat, y: nat, rows: nat, columns: nat)

  /** Instructions sent to the server. `Exit` and `NewClient` are the variants the
      OS layer builds itself; every other variant is represented by `Other`. */
  datatype ServerInstruction =
    | Exit
    | NewClient(bufferPath: string, fullScreenWs: PositionAndSize)
    | Other(name: string)

  /** Instructions sent to a client, opaque to the OS layer. */
  datatype ClientInstruction = ClientInstruction(name: string)
}
