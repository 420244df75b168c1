/** The IPC bookkeeping of the server's and the client's OS capability objects,
    and the connection handshake that links them. */
module OsInputOutput {
  import opened Instructions
  import opened Ipc

  /** The machine's shared-memory namespace: the ring buffers that have been
      created, by path, kept apart by the instructions they carry. `open` on a path
      that is not here fails. */
  class SharedMemory {
    var serverBuffers: map<string, SharedRingBuffer<ServerInstruction>>
    var clientBuffers: map<string, SharedRingBuffer<ClientInstruction>>

    /** A path names at most one buffer: the file-system fact "one file per path".
        The operations that create buffers keep it; no proof depends on it. */
    ghost predicate Valid()
      reads this
    {
      serverBuffers.Keys !! clientBuffers.Keys
    }

    constructor ()
      ensures Valid()
      ensures serverBuffers == map[] && clientBuffers == map[]
    {
      serverBuffers := map[];
      clientBuffers := map[];
    }
  }

  /** The server's OS object: a sender and a receiver over the server's inbound
      buffer, and an optional sender to the connected client. */
  class ServerOsInputOutput {
    const serverSender: IpcSenderWithContext<ServerInstruction>
    const serverReceiver: IpcReceiver<ServerInstruction>
    var clientSender: Option<IpcSenderWithContext<ClientInstruction>>

    /** The server's sender and receiver share one buffer. */
    ghost predicate Valid()
    {
      serverReceiver.buffer == serverSender.buffer
    }

    /** `get_server_os_input`: creates the inbound buffer at the well-known path
        `ipcPipe` (replacing whatever the path named before), a sender and a
        receiver over it, and no client sender. */
    constructor (shm: SharedMemory, ipcPipe: string)
      requires shm.Valid()
      modifies shm
      ensures Valid() && shm.Valid()
      ensures fresh(serverSender) && fresh(serverReceiver) && fresh(serverSender.buffer)
      ensures serverSender.buffer.path == ipcPipe && serverSender.buffer.capacity == IpcBufferSize
      ensures serverSender.buffer.log == [] && serverSender.buffer.read == 0
      ensures serverSender.errCtx == NewErrorContext()
      ensures clientSender == None
      ensures shm.serverBuffers == old(shm.serverBuffers)[ipcPipe := serverSender.buffer]
      ensures shm.clientBuffers == old(shm.clientBuffers) - {ipcPipe}
    {
      var buffer := new SharedRingBuffer(ipcPipe, IpcBufferSize);
      serverSender := new IpcSenderWithContext(buffer);
      serverReceiver := new IpcReceiver(buffer);
      clientSender := None;
      shm.serverBuffers := shm.serverBuffers[ipcPipe := buffer];
      shm.clientBuffers := shm.clientBuffers - {ipcPipe};
    }

    /** `server_exit`: puts `Exit`, stamped with the server sender's context, on
        the server's own inbound buffer, where its receiver will find it. */
    method ServerExit()
      requires Valid()
      modifies serverSender.buffer
      ensures serverReceiver.buffer.log == old(serverReceiver.buffer.log) + [Envelope(Exit, serverSender.errCtx)]
      ensures serverReceiver.buffer.read == old(serverReceiver.buffer.read)
    {
      serverSender.Send(Exit);
    }

    /** `server_recv`: the oldest unread inbound message with its context. */
    method ServerRecv() returns (msg: ServerInstruction, ctx: ErrorContext)
      requires serverReceiver.buffer.read < |serverReceiver.buffer.log|
      modifies serverReceiver.buffer
      ensures Envelope(msg, ctx) == old(serverReceiver.buffer.log[serverReceiver.buffer.read])
      ensures serverReceiver.buffer.read == old(serverReceiver.buffer.read) + 1
      ensures serverReceiver.buffer.log == old(serverReceiver.buffer.log)
    {
      msg, ctx := serverReceiver.Recv();
    }

    /** `send_to_client`: appends the message, stamped with the client sender's
        context, to the client's buffer. Without a client sender the source
        panics, so one must be present. */
    method SendToClient(msg: ClientInstruction)
      requires clientSender.Some?
      modifies clientSender.value.buffer
      ensures clientSender.value.buffer.log
           == old(clientSender.value.buffer.log) + [Envelope(msg, clientSender.value.errCtx)]
      ensures clientSender.value.buffer.read == old(clientSender.value.buffer.read)
      ensures serverSender.buffer.log == old(serverSender.buffer.log)
    {
      clientSender.value.Send(msg);
    }

    /** `add_client_sender`: opens the buffer at `bufferPath` and replaces any
        previous client sender by a new one with the empty context. Opening a path
        that does not exist panics in the source, so it must exist. */
    method AddClientSender(bufferPath: string, shm: SharedMemory)
      requires bufferPath in shm.clientBuffers
      modifies this
      ensures clientSender.Some? && fresh(clientSender.value)
      ensures clientSender.value.buffer == shm.clientBuffers[bufferPath]
      ensures clientSender.value.errCtx == NewErrorContext()
      ensures serverSender.errCtx == old(serverSender.errCtx)
      ensures serverSender.buffer.log == old(serverSender.buffer.log)
    {
      var s := new IpcSenderWithContext(shm.clientBuffers[bufferPath]);
      clientSender := Some(s);
    }

    /** `update_senders`: gives the server sender, and the client sender when
        there is one, the context `newCtx`; whether there is a client sender does
        not change, and no log changes. */
    method UpdateSenders(newCtx: ErrorContext)
      modifies serverSender, if clientSender.Some? then {clientSender.value} else {}
      ensures serverSender.errCtx == newCtx
      ensures clientSender == old(clientSender)
      ensures clientSender.Some? ==> clientSender.value.errCtx == newCtx
      ensures serverSender.buffer.log == old(serverSender.buffer.log)
      ensures clientSender.Some? ==> clientSender.value.buffer.log == old(clientSender.value.buffer.log)
    {
      serverSender.Update(newCtx);
      if clientSender.Some? {
        clientSender.value.Update(newCtx);
      }
    }
  }

  /** A client's OS object: a sender to the server's inbound buffer and, once
      connected, a receiver over the client's own buffer. */
  class ClientOsInputOutput {
    const serverSender: IpcSenderWithContext<ServerInstruction>
    var clientReceiver: Option<IpcReceiver<ClientInstruction>>

    /** `get_client_os_input`: opens the server's inbound buffer at `ipcPipe`
        (which must exist: the source panics otherwise) with a sender carrying the
        empty context, and no receiver yet. */
    constructor (shm: SharedMemory, ipcPipe: string)
      requires ipcPipe in shm.serverBuffers
      ensures fresh(serverSender)
      ensures serverSender.buffer == shm.serverBuffers[ipcPipe]
      ensures serverSender.errCtx == NewErrorContext()
      ensures clientReceiver == None
    {
      serverSender := new IpcSenderWithContext(shm.serverBuffers[ipcPipe]);
      clientReceiver := None;
    }

    /** `send_to_server`: appends the message, stamped with the client's current
        context, to the server's inbound buffer. */
    method SendToServer(msg: ServerInstruction)
      modifies serverSender.buffer
      ensures serverSender.buffer.log == old(serverSender.buffer.log) + [Envelope(msg, serverSender.errCtx)]
      ensures serverSender.buffer.read == old(serverSender.buffer.read)
    {
      serverSender.Send(msg);
    }

    /** `update_senders`: changes the context of the server sender and nothing else. */
    method UpdateSenders(newCtx: ErrorContext)
      modifies serverSender
      ensures serverSender.errCtx == newCtx
      ensures serverSender.buffer.log == old(serverSender.buffer.log)
    {
      serverSender.Update(newCtx);
    }

    /** `connect_to_server`: creates a fresh, empty buffer at the new temporary path
        `tempPath` (one no buffer is at yet), keeps a receiver over it, and announces it to the server with
        exactly one `NewClient(tempPath, ws)`, stamped with the client's context. */
    method ConnectToServer(ws: PositionAndSize, tempPath: string, shm: SharedMemory)
      requires shm.Valid()
      requires tempPath !in shm.clientBuffers && tempPath !in shm.serverBuffers
      modifies this, shm, serverSender.buffer
      ensures shm.Valid()
      ensures clientReceiver.Some? && fresh(clientReceiver.value) && fresh(clientReceiver.value.buffer)
      ensures clientReceiver.value.buffer.path == tempPath
      ensures clientReceiver.value.buffer.capacity == IpcBufferSize
      ensures clientReceiver.value.buffer.log == [] && clientReceiver.value.buffer.read == 0
      ensures shm.clientBuffers == old(shm.clientBuffers)[tempPath := clientReceiver.value.buffer]
      ensures shm.serverBuffers == old(shm.serverBuffers)
      ensures serverSender.buffer.log
           == old(serverSender.buffer.log) + [Envelope(NewClient(tempPath, ws), serverSender.errCtx)]
      ensures serverSender.buffer.read == old(serverSender.buffer.read)
    {
      var buffer := new SharedRingBuffer(tempPath, IpcBufferSize);
      shm.clientBuffers := shm.clientBuffers[tempPath := buffer];
      var r := new IpcReceiver(buffer);
      clientReceiver := Some(r);
      SendToServer(NewClient(tempPath, ws));
    }

    /** `client_recv`: the oldest unread message on the client's own buffer. The
        source panics when the client has not connected, so it must have. */
    method ClientRecv() returns (msg: ClientInstruction, ctx: ErrorContext)
      requires clientReceiver.Some?
      requires clientReceiver.value.buffer.read < |clientReceiver.value.buffer.log|
      modifies clientReceiver.value.buffer
      ensures Envelope(msg, ctx) == old(clientReceiver.value.buffer.log[clientReceiver.value.buffer.read])
      ensures clientReceiver.value.buffer.read == old(clientReceiver.value.buffer.read) + 1
      ensures clientReceiver.value.buffer.log == old(clientReceiver.value.buffer.log)
    {
      msg, ctx := clientReceiver.value.Recv();
    }
  }

  /** The connection handshake on a fresh namespace, with a temporary path other
      than the well-known one: the server starts, a client
      starts and sets its context, connects, the server receives the announcement
      and opens the announced path, and replies. The server reads exactly the
      client's `NewClient` with the client's context, and the client reads exactly
      the reply, stamped with the empty context of the newly added sender. */
  method Handshake(ipcPipe: string, tempPath: string, ws: PositionAndSize,
                   clientCtx: ErrorContext, reply: ClientInstruction)
    returns (announced: ServerInstruction, announcedCtx: ErrorContext,
             received: ClientInstruction, receivedCtx: ErrorContext)
    requires tempPath != ipcPipe
    ensures announced == NewClient(tempPath, ws) && announcedCtx == clientCtx
    ensures received == reply && receivedCtx == NewErrorContext()
  {
    var shm := new SharedMemory();
    var server := new ServerOsInputOutput(shm, ipcPipe);
    var client := new ClientOsInputOutput(shm, ipcPipe);
    client.UpdateSenders(clientCtx);
    client.ConnectToServer(ws, tempPath, shm);
    announced, announcedCtx := server.ServerRecv();
    server.AddClientSender(announced.bufferPath, shm);
    server.SendToClient(reply);
    received, receivedCtx := client.ClientRecv();
  }
}
