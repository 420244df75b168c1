# Model of zellij's OS input/output layer

This project models the logic inside `src/common/os_input_output.rs` of the zellij
terminal multiplexer, the layer between the multiplexer and the operating system.
Most of that file wraps termios, ioctl, forkpty, signals and stdio. Three pieces of
logic sit inside it, and they are modelled and proved here.

- **The context-stamped sender** (`IpcSenderWithContext`). It holds the current
  `ErrorContext` and stamps every outgoing message with it. The shared-memory ring
  buffer it writes to is modelled as an append-only log of `(message, context)`
  envelopes plus a read position. The class in `ipc.dfy` is tied, method by method,
  to a step function `Ipc.Step` over the sender's state. A buffer can have several
  writers: the server's inbound buffer is written by the server's own sender and by
  every client's. So the steps also include an append by another writer. The lemmas
  prove what any such sequence of steps does to the log:
  - the log gains exactly the written messages, in write order; with no other
    writer, exactly this sender's messages;
  - this sender's messages keep their send order;
  - each is stamped with the context in effect at its send;
  - an `update` never alters a pair already sent.
- **The server's and client's sender/receiver bookkeeping**
  (`ServerOsInputOutput`, `ClientOsInputOutput` in `os_input_output.dfy`). These are
  classes whose fields are the source's fields. The machine's shared-memory
  namespace is a `SharedMemory` object mapping paths to buffers, kept in two maps
  by the instructions the buffers carry, with at most one buffer per path. `open` of a missing
  path, and every `unwrap` of a `None`, panic in the source; here they are
  preconditions. `Handshake` composes the operations into the connection handshake.
  It proves that the server reads the client's announcement with the client's
  context, and that the client then reads the server's reply.
- **Program selection and the resize window size** (`spawn.dfy`). These are pure
  functions: which program the child of a new pseudo-terminal runs, given the file
  to open and the environment, and the `Winsize` given to the resize ioctl.

With no file to open and `SHELL` unset, the code's `unwrap` panics
(src/common/os_input_output.rs:145). The model returns `Err(ShellNotDefined)`.

The path of the server's well-known buffer (`ZELLIJ_IPC_PIPE`) is defined in
the crate's `utils::consts` module, which is not part of this model. It is a parameter, `ipcPipe`.
`ErrorContext`, `PositionAndSize` and the instruction enums are defined in modules
that are not part of this model either. They are plain value types here; of the
instructions, only `Exit` and `NewClient` are spelled out.

## Model

| member | source | states |
|---|---|---|
| `Ipc.IpcSenderWithContext.constructor` | src/common/os_input_output.rs:173-179 | a new sender is bound to the given buffer and carries `ErrorContext::new()`; the buffer's log is untouched |
| `Ipc.IpcSenderWithContext.Update` | src/common/os_input_output.rs:186-188 | the context becomes exactly `ctx`; the log of sent pairs is unchanged |
| `Ipc.IpcSenderWithContext.Send` | src/common/os_input_output.rs:192-194 | exactly one entry `(msg, current context)` is appended at the end of the log; earlier entries, the context and the read position are unchanged |
| `Ipc.IpcReceiver.Recv` | src/common/os_input_output.rs:265-267 | returns the oldest unread entry, message and context together, and advances the read position by one; the log is unchanged |
| `Ipc.RunAppend` | src/common/os_input_output.rs:186-194 | running two batches of updates and sends equals running the first and then the second from the state it leaves |
| `Ipc.RunKeepsLog` | src/common/os_input_output.rs:186-194 | after any sequence of updates and sends, the earlier log is a prefix of the new log |
| `Ipc.RunPayloads` | src/common/os_input_output.rs:192-194 | the log gains exactly the messages written during the run, by this sender or another writer, in write order, and its length grows by their number |
| `Ipc.SoleWriter` | src/common/os_input_output.rs:192-194 | when no other writer appends, what reaches the log is exactly this sender's sent messages, in send order |
| `Ipc.SendsInOrder` | src/common/os_input_output.rs:192-194 | of two sends by this sender, the earlier lands at an earlier log position, whatever other writers append between them |
| `Ipc.RunContext` | src/common/os_input_output.rs:186-188 | after any sequence of operations the sender holds the context of the most recent update, or its original context if there was none |
| `Ipc.RunStamps` | src/common/os_input_output.rs:186-194 | the i-th operation, if this sender's send, lands at log position `start + number of entries written before it`, paired with the context in effect before it |
| `Ipc.UpdateNotRetroactive` | src/common/os_input_output.rs:181-188 | whatever follows an update, the log as it stood at the update remains a prefix of the final log |
| `OsInputOutput.ServerOsInputOutput.constructor` | src/common/os_input_output.rs:289-301 | creates one fresh, empty buffer of `IPC_BUFFER_SIZE` bytes at the well-known path, replacing whatever the path named; the sender and the receiver share it; the sender carries the new context; there is no client sender |
| `OsInputOutput.ServerOsInputOutput.ServerExit` | src/common/os_input_output.rs:262-264 | appends `Exit`, stamped with the server sender's context, to the buffer the server's receiver reads |
| `OsInputOutput.ServerOsInputOutput.ServerRecv` | src/common/os_input_output.rs:265-267 | returns the oldest unread inbound message with its context and consumes it |
| `OsInputOutput.ServerOsInputOutput.SendToClient` | src/common/os_input_output.rs:268-270 | requires a client sender; appends `(msg, client sender's context)` to the client's buffer; the server's inbound log is untouched |
| `OsInputOutput.ServerOsInputOutput.AddClientSender` | src/common/os_input_output.rs:271-274 | requires the path to name a client buffer; the client sender becomes a new sender on that path's buffer, with the new context, discarding any previous one; the server sender is untouched |
| `OsInputOutput.ServerOsInputOutput.UpdateSenders` | src/common/os_input_output.rs:275-280 | the server sender's context becomes `newCtx`, and so does the client sender's when present; whether a client sender is present does not change; no log changes |
| `OsInputOutput.ClientOsInputOutput.constructor` | src/common/os_input_output.rs:400-410 | requires the well-known path to name a server buffer; the sender writes to it and carries the new context; there is no client receiver |
| `OsInputOutput.ClientOsInputOutput.SendToServer` | src/common/os_input_output.rs:366-368 | appends `(msg, client's context)` to the server's inbound log |
| `OsInputOutput.ClientOsInputOutput.UpdateSenders` | src/common/os_input_output.rs:369-371 | only the server sender's context changes, to `newCtx` |
| `OsInputOutput.ClientOsInputOutput.ConnectToServer` | src/common/os_input_output.rs:372-382 | requires the temporary path to name no buffer yet; creates a fresh empty buffer there and keeps a receiver over it; a path still names at most one buffer; appends exactly one `NewClient(path, ws)` with the client's context to the server's log |
| `OsInputOutput.ClientOsInputOutput.ClientRecv` | src/common/os_input_output.rs:383-391 | requires a client receiver; returns the oldest unread message on the client's buffer with its context and consumes it |
| `OsInputOutput.Handshake` | src/common/os_input_output.rs:372-382 | on a fresh namespace with a temporary path other than the well-known one, the server receives exactly `NewClient(path, ws)` with the client's context; after it adds a sender for that path and replies, the client receives exactly that reply, stamped with the new context |
| `Spawn.ResizeWinsize` | src/common/os_input_output.rs:64-69 | the resize window size has the requested columns and rows, and zero pixel width and height |
| `Spawn.SelectProgram` | src/common/os_input_output.rs:129-150 | with a file, succeeds exactly when `EDITOR` or `VISUAL` is set; `EDITOR` wins over `VISUAL`; the only argument is the file; otherwise it fails with `EditorNotDefined`. Without a file, runs `SHELL` with no arguments, or fails with `ShellNotDefined` when it is unset |
| `Spawn.SelectProgramReadsOnly` | src/common/os_input_output.rs:129-150 | with a file the result depends only on `EDITOR` and `VISUAL`; without one, only on `SHELL` |

## Left out

- Terminal attributes (`into_raw_mode`, `unset_raw_mode`, `tcgetattr`, `tcsetattr`, `cfmakeraw`) and the window-size ioctls: these are foreign termios and libc calls. Only the `Winsize` value passed to the resize ioctl is modelled. The zero-filled `Winsize` that `get_terminal_size_using_fd` hands to the kernel, and `PositionAndSize::from`, are not modelled.
- The saved terminal state `orig_termios` in both OS objects: it is captured by a foreign call and only read by foreign calls.
- Process control (`forkpty`, `fcntl`, `Command::spawn`, `process::exit`, `kill`, `waitpid`) and `handle_command_exit`: these are process creation, signals and a timed poll loop. `SelectProgram` covers only the choice of program made in the child branch.
- Descriptor and stdio I/O (`read_from_tty_stdout`, `write_to_tty_stdin`, `tcdrain`, `read_from_stdin`, `get_stdout_writer`): these are raw OS I/O with no logic of their own.
- The ring buffer's capacity and serialisation: the log is unbounded. The buffers record their capacity but never fill up.
- Buffer creation: `SharedRingBuffer::create(...).unwrap()` (src/common/os_input_output.rs:292) and `create_temp(...).unwrap()` (src/common/os_input_output.rs:374) always succeed in the model. Their failures are not modelled, while `open`'s failure is a precondition.
- The capacity of `ErrorContext`: its trace is an unbounded sequence of opaque call-site identifiers, and the eviction of the oldest entries is not modelled.
- `Ipc.IpcSenderWithContext.Send`: the model's send always succeeds. The source's send returns an `ipmpsc::Result` (src/common/os_input_output.rs:192), and every caller unwraps it into a panic (263, 269, 367). When that result is an error is up to the ipmpsc library, which is not part of this model.
- `OsInputOutput.ServerOsInputOutput.AddClientSender`: buffers are typed by the instructions they carry, and the namespace keeps server buffers and client buffers apart. ipmpsc buffers are untyped, and `open` accepts any existing buffer (src/common/os_input_output.rs:272, 403). So the source lets `add_client_sender` open the server's own inbound path; `send_to_client` would then write into the log `server_recv` reads. The model excludes opening a buffer as the other kind. This is what lets `SendToClient` promise that the server's inbound log is untouched. The path the server router really passes comes from `create_temp`, by way of `NewClient`. The client constructor likewise requires the well-known path to name a server buffer.
- `Ipc.IpcReceiver.Recv`: the source blocks until a message arrives. The model instead requires one to be available; `ServerRecv` and `ClientRecv` inherit this.
- `Spawn.SelectProgram`: the editor check runs in the child branch, after `forkpty` (src/common/os_input_output.rs:129-133), so a missing editor is found only once a child process exists. The model returns `Err(EditorNotDefined)` and says nothing about when the decision is taken.
- `Spawn.SelectProgram`: `env::var` also fails for a value that is not valid Unicode. The model treats the environment as a map of strings, so that case does not arise. The source also reads `EDITOR` twice; the model reads a fixed environment, so the two reads agree.
- Cloning (`#[derive(Clone)]`, `box_clone`) and `Arc`/`Mutex` sharing: a clone of a sender or of an OS object copies its `err_ctx` and its `client_sender` option, and shares only the ring buffers, the `Arc<Mutex<…>>` receivers and the saved terminal state. The model has no clone operation and no locks, so it does not capture several threads holding independent copies of the contexts.
- The server's reaction to a `NewClient` announcement lives in the server router, in a file that is not part of this model. `Handshake` performs that step by calling `add_client_sender` with the announced path.
