/** The context-stamped IPC channel: a shared ring buffer seen as an append-only
    log of (message, context) pairs, a sender that stamps every message with its
    current error context, and a receiver that reads the log in order. */
module Ipc {
  import opened Instructions

  /** Capacity, in bytes, of every shared ring buffer the OS layer creates. */
  const IpcBufferSize: nat := 8388608

  /** What a sender writes: the message together with the context it carried. */
  datatype Envelope<T> = Envelope(msg: T, ctx: ErrorContext)

  /** A shared-memory ring buffer. `log` is every message ever written to it,
      in write order; `read` is how many of them the reader has consumed. */
  class SharedRingBuffer<T> {
    const path: string
    const capacity: nat
    var log: seq<Envelope<T>>
    var read: nat

    constructor (path: string, capacity: nat)
      ensures this.path == path && this.capacity == capacity
      ensures log == [] && read == 0
    {
      this.path := path;
      this.capacity := capacity;
      log := [];
      read := 0;
    }
  }

  // ----- The sender's behaviour as a function of its state -----

  /** What a sender can observe and affect: its context and its buffer's log. */
  datatype SenderState<T> = SenderState(ctx: ErrorContext, log: seq<Envelope<T>>)

  /** What can happen to a sender and its buffer: its own `update` and `send`, and an
      append to the same buffer by another writer (the server's inbound buffer is
      written by the server's own sender and by every client's). */
  datatype SenderOp<T> = SetContext(newCtx: ErrorContext) | SendMessage(msg: T) | OtherWrite(entry: Envelope<T>)

  /** One operation: `update` replaces the context, `send` appends the message
      stamped with the context it finds, another writer appends its own entry. */
  function Step<T>(s: SenderState<T>, op: SenderOp<T>): SenderState<T>
  {
    match op
    case SetContext(c) => SenderState(c, s.log)
    case SendMessage(m) => SenderState(s.ctx, s.log + [Envelope(m, s.ctx)])
    case OtherWrite(e) => SenderState(s.ctx, s.log + [e])
  }

  /** A sequence of operations, performed left to right. */
  function Run<T>(s: SenderState<T>, ops: seq<SenderOp<T>>): SenderState<T>
    decreases |ops|
  {
    if ops == [] then s else Run(Step(s, ops[0]), ops[1..])
  }

  /** The messages that this sender's own sends among `ops` pass, in order. */
  function Sent<T>(ops: seq<SenderOp<T>>): seq<T>
    decreases |ops|
  {
    if ops == [] then []
    else (if ops[0].SendMessage? then [ops[0].msg] else []) + Sent(ops[1..])
  }

  /** The messages that reach the buffer during `ops`, by any writer, in order. */
  function Written<T>(ops: seq<SenderOp<T>>): seq<T>
    decreases |ops|
  {
    if ops == [] then []
    else (match ops[0]
          case SetContext(_) => []
          case SendMessage(m) => [m]
          case OtherWrite(e) => [e.msg]) + Written(ops[1..])
  }

  /** The messages of a log, without their contexts. */
  function Payloads<T>(log: seq<Envelope<T>>): seq<T>
  {
    seq(|log|, i requires 0 <= i < |log| => log[i].msg)
  }

  /** The context in effect after `ops` when it was `c0` before them:
      the one set by the most recent `update`, or `c0` if there was none. */
  function ContextAfter<T>(c0: ErrorContext, ops: seq<SenderOp<T>>): ErrorContext
    decreases |ops|
  {
    if ops == [] then c0
    else if ops[|ops| - 1].SetContext? then ops[|ops| - 1].newCtx
    else ContextAfter(c0, ops[..|ops| - 1])
  }

  /** Running two batches of operations is running them one after the other. */
  lemma {:induction false} RunAppend<T>(s: SenderState<T>, a: seq<SenderOp<T>>, b: seq<SenderOp<T>>)
    ensures Run(s, a + b) == Run(Run(s, a), b)
    decreases |a|
  {
    if a == [] {
      assert a + b == b;
    } else {
      assert (a + b)[0] == a[0];
      assert (a + b)[1..] == a[1..] + b;
      RunAppend(Step(s, a[0]), a[1..], b);
    }
  }

  /** What two batches write is what the first writes followed by what the second does. */
  lemma {:induction false} WrittenAppend<T>(a: seq<SenderOp<T>>, b: seq<SenderOp<T>>)
    ensures Written(a + b) == Written(a) + Written(b)
    decreases |a|
  {
    if a == [] {
      assert a + b == b;
    } else {
      assert (a + b)[0] == a[0];
      assert (a + b)[1..] == a[1..] + b;
      WrittenAppend(a[1..], b);
    }
  }

  /** No operation removes or alters an entry already in the log. */
  lemma {:induction false} RunKeepsLog<T>(s: SenderState<T>, ops: seq<SenderOp<T>>)
    ensures s.log <= Run(s, ops).log
    decreases |ops|
  {
    if ops != [] {
      RunKeepsLog(Step(s, ops[0]), ops[1..]);
    }
  }

  /** The log gains exactly the messages written, by this sender or another, in
      write order. */
  lemma {:induction false} RunPayloads<T>(s: SenderState<T>, ops: seq<SenderOp<T>>)
    ensures Payloads(Run(s, ops).log) == Payloads(s.log) + Written(ops)
    ensures |Run(s, ops).log| == |s.log| + |Written(ops)|
    decreases |ops|
  {
    if ops != [] {
      var t := Step(s, ops[0]);
      RunPayloads(t, ops[1..]);
      match ops[0]
      case SetContext(_) =>
        assert t.log == s.log;
      case SendMessage(m) =>
        assert Payloads(t.log) == Payloads(s.log) + [m];
      case OtherWrite(e) =>
        assert Payloads(t.log) == Payloads(s.log) + [e.msg];
    }
  }

  /** When this sender is the buffer's only writer, what is written is exactly what
      it sends, so the log gains exactly the sent messages in send order. */
  lemma {:induction false} SoleWriter<T>(ops: seq<SenderOp<T>>)
    requires forall k :: 0 <= k < |ops| ==> !ops[k].OtherWrite?
    ensures Written(ops) == Sent(ops)
    decreases |ops|
  {
    if ops != [] {
      assert !ops[0].OtherWrite?;
      SoleWriter(ops[1..]);
    }
  }

  /** After a run the sender holds the context of the most recent `update`. */
  lemma {:induction false} RunContext<T>(s: SenderState<T>, ops: seq<SenderOp<T>>)
    ensures Run(s, ops).ctx == ContextAfter(s.ctx, ops)
    decreases |ops|
  {
    if ops != [] {
      var n := |ops| - 1;
      assert ops == ops[..n] + [ops[n]];
      RunAppend(s, ops[..n], [ops[n]]);
      RunContext(s, ops[..n]);
    }
  }

  /** The `i`-th operation, when it is this sender's send, puts its message into the
      log at the position given by the number of entries written before it, stamped
      with the context that was in effect at that moment (and not with any later one). */
  lemma RunStamps<T>(s: SenderState<T>, ops: seq<SenderOp<T>>, i: nat)
    requires i < |ops| && ops[i].SendMessage?
    ensures |s.log| + |Written(ops[..i])| < |Run(s, ops).log|
    ensures Run(s, ops).log[|s.log| + |Written(ops[..i])|]
         == Envelope(ops[i].msg, ContextAfter(s.ctx, ops[..i]))
  {
    var t := Run(s, ops[..i]);
    RunPayloads(s, ops[..i]);
    RunContext(s, ops[..i]);
    var u := Step(t, ops[i]);
    assert u.log == t.log + [Envelope(ops[i].msg, t.ctx)];
    assert ops == ops[..i] + ([ops[i]] + ops[i + 1..]);
    RunAppend(s, ops[..i], [ops[i]] + ops[i + 1..]);
    assert Run(t, [ops[i]] + ops[i + 1..]) == Run(u, ops[i + 1..]);
    RunKeepsLog(u, ops[i + 1..]);
  }

  /** This sender's messages keep their send order in the log, whatever other writers
      append between them: an earlier send lands at an earlier position. */
  lemma SendsInOrder<T>(ops: seq<SenderOp<T>>, i: nat, j: nat)
    requires i < j < |ops| && ops[i].SendMessage? && ops[j].SendMessage?
    ensures |Written(ops[..i])| < |Written(ops[..j])|
  {
    assert ops[..j] == ops[..i] + ([ops[i]] + ops[i + 1..j]);
    WrittenAppend(ops[..i], [ops[i]] + ops[i + 1..j]);
    WrittenAppend([ops[i]], ops[i + 1..j]);
    assert Written([ops[i]]) == [ops[i].msg];
  }

  /** An `update` never changes pairs sent before it: whatever follows it, the log
      as it stood at the `update` stays a prefix of the log. */
  lemma UpdateNotRetroactive<T>(s: SenderState<T>, before: seq<SenderOp<T>>, c: ErrorContext,
                                after: seq<SenderOp<T>>)
    ensures Run(s, before).log <= Run(s, before + [SetContext(c)] + after).log
  {
    RunAppend(s, before, [SetContext(c)] + after);
    assert before + [SetContext(c)] + after == before + ([SetContext(c)] + after);
    RunKeepsLog(Run(s, before), [SetContext(c)] + after);
  }

  // ----- The objects -----

  /** A sender on a shared ring buffer that stamps every message with its
      current error context. */
  class IpcSenderWithContext<T> {
    var errCtx: ErrorContext
    const buffer: SharedRingBuffer<T>

    /** The part of the heap this sender's behaviour depends on. */
    ghost function State(): SenderState<T>
      reads this, buffer
    {
      SenderState(errCtx, buffer.log)
    }

    /** A sender on `buffer`, starting with the empty context; the buffer's log
        is not touched. */
    constructor (buffer: SharedRingBuffer<T>)
      ensures this.buffer == buffer
      ensures errCtx == NewErrorContext()
    {
      this.buffer := buffer;
      errCtx := NewErrorContext();
    }

    /** Replaces the context; the log of already-sent pairs is unchanged. */
    method Update(ctx: ErrorContext)
      modifies this
      ensures errCtx == ctx
      ensures State() == Step(old(State()), SetContext(ctx))
    {
      errCtx := ctx;
    }

    /** Appends exactly one entry, the message with the current context, at the
        end of the log; earlier entries and the read position are unchanged. */
    method Send(msg: T)
      modifies buffer
      ensures buffer.log == old(buffer.log) + [Envelope(msg, errCtx)]
      ensures buffer.read == old(buffer.read)
      ensures State() == Step(old(State()), SendMessage(msg))
    {
      buffer.log := buffer.log + [Envelope(msg, errCtx)];
    }
  }

  /** The reading end of a shared ring buffer. */
  class IpcReceiver<T> {
    const buffer: SharedRingBuffer<T>

    constructor (buffer: SharedRingBuffer<T>)
      ensures this.buffer == buffer
    {
      this.buffer := buffer;
    }

    /** Takes the oldest message not yet read, with the context it was sent
        with. The source blocks until one is available; here it must be. */
    method Recv() returns (msg: T, ctx: ErrorContext)
      requires buffer.read < |buffer.log|
      modifies buffer
      ensures Envelope(msg, ctx) == old(buffer.log[buffer.read])
      ensures buffer.read == old(buffer.read) + 1
      ensures buffer.log == old(buffer.log)
    {
      var e := buffer.log[buffer.read];
      msg, ctx := e.msg, e.ctx;
      buffer.read := buffer.read + 1;
    }
  }
}
