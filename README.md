# gpush registration-and-dispatch engine, in Dafny

gpush lets a server push named commands to clients over bidirectional gRPC
streams. Each client opens a stream and registers under its own id,
listing the API names it handles. The server keeps a registry from id to
that session's send function. `SendCmd(id, api, data)` looks the id up and
writes `{api, data}` on that stream. The client's receive loop calls the
handler registered for each received api.

This project models that engine (`gpush.go`) as a sequential state machine
over abstract stream events:

- `wire.dfy` (module `Wire`): the envelopes (`Request`, `Response`), the
  registration payload (a list of names), the errors, and the reserved
  `/register`, `/ok`/`success` and `/error`/`dup id` messages.
- `server.dfy` (module `PushServer`):
  - `Push` is cut into pure steps, one per locked region of the registry
    and one per hook call or wait in between: `ReadFirst`, `InsertHandle`,
    `CallOnline`, `AwaitTermination`, `RemoveHandle`.
  - `PushSession` runs those steps in order and states what one whole
    `Push` promises.
  - The `Server` class holds the registry `cbCmd` and the two hooks. It
    has imperative `Push`, `SendCmd` and the hook setters, each proved
    against those functions.
- `interleaving.dfy` (module `Interleaving`): any number of `Push` sessions
  interleaved step by step against one registry, together with any
  number of `SendCmd` calls. A `SendCmd` call is two events: the look-up
  under the read lock, which keeps the handle it finds, and the later
  write through that handle. It proves that every registry entry always
  belongs to a live session holding that id, so a look-up never finds a
  session that has returned. The write that follows can still land on a
  session that has returned since. It also proves that two sessions with
  the same id can both go online.
- `client.dfy` (module `PushClient`):
  - The client's handler table and the `Client` class with `RegisterCmd`,
    the registration handshake `RegisterClient` (including the name-list
    loop `ApiNames`), `ProcessMessage` and the receive loop `Run`.
  - `Run` and `ProcessMessage` are proved against the function `Dispatch`,
    and the lemmas beside it state the dispatch properties.
- `endtoend.dfy` (module `EndToEnd`): the server's handshake replies as the
  client reads them. On a stream whose first message is `/ok`, a pushed
  command reaches the client's handler unchanged and in order. A command
  written before the `/ok` is lost.

Inputs the code gets from outside become parameters:
- what each `Recv` yields, what each `Send` yields, and what opening a
  stream yields;
- the online hook's verdict (a function of the id and the handshake data);
- the end of the stream's context (a single terminate event).

Outputs become return values: the errors, the responses sent, the hook
calls in order, and the handler calls in order. Locking is not modelled.
Each locked region is one atomic step. Code outside a locked region gets
steps of its own: the hook calls, the wait for termination, and the write
of a `SendCmd`, which runs after its look-up releases the lock.

## Specification and code

- One might expect that of several concurrent registrations with one id,
  at most one reaches the online hook. The code does not guarantee this. The duplicate check (`gpush.go:103-105`) and the insert
  (`gpush.go:109-111`) are separate critical sections, so two sessions
  can both find the id free and then both insert. The model follows the
  code.
  - `Interleaving.RaceAdmitsTwoOnline` shows both sessions acknowledged
    with `/ok` after both online-hook calls.
  - `Interleaving.RaceLeavesActiveSessionUnreachable` shows that once one
    of them ends, it deletes the id, and the other, still active, can no
    longer be reached by `SendCmd`.
- So "an entry exists iff its session is active" holds in one direction
  only. Every entry belongs to a live session of that id
  (`Interleaving.Inv`). An active session is not always registered.
- A command pushed to a session after its insert (`gpush.go:109-111`) but
  before its `/ok` (`gpush.go:115`) is written on the stream ahead of the
  `/ok`. The client's handshake reads the first message on the stream as
  its reply (`gpush.go:41-48`). It takes the command for a success reply,
  so registration succeeds. The receive loop then reads `/ok`, which names
  no handler, and drops it (`gpush.go:56-58`). The command never reaches
  its handler. `EndToEnd.EarlyPushIsLost` shows this on one connection.
  Delivery is therefore proved only for a stream whose first message is
  `/ok` (`EndToEnd.SendCmdReachesHandler`).
- `SendCmd` looks the id up under the read lock (`gpush.go:170-172`) but
  calls the handle after releasing it (`gpush.go:176`). In between, the
  session can see its context end, call the offline hook, delete its entry
  and return (`gpush.go:116-125`). The write then goes to the stream of a
  `Push` that has already returned. `Interleaving.WriteAfterReturn` shows
  this. The look-up itself never finds a returned session
  (`Interleaving.SendCmdReachesLiveSession`).
- When a pushed command fails to write, the session's send function
  waits on a `quit` channel that nothing ever signals (`gpush.go:95-101`),
  so the `SendCmd` caller blocks forever. In the model the send function
  always returns after writing. The write is recorded on the session's
  stream even when that session has returned, where the real send would
  fail and block its caller. The stall is not modelled, and a write
  failure never ends a session.

## Model

| member | source | states |
|---|---|---|
| `PushServer.Route` | gpush.go:169-177 | a registered id yields exactly one call of its stored handle, on that session's stream, with api and data unchanged; an unregistered id yields nothing |
| `PushServer.ReadFirst` | gpush.go:87-108 | reading the first envelope never calls a hook or changes the registry; a failed read returns the transport error and sends nothing; a non-`/register` envelope returns "no register proto" and sends nothing; an id already registered sends exactly one `/error`/`dup id` and returns the result of that send; only a free id goes on to insert |
| `PushServer.InsertHandle` | gpush.go:109-111 | after the insert the id maps to this session's handle and every other entry is as before |
| `PushServer.CallOnline` | gpush.go:112-115 | the online hook is called once with the id and the handshake data; on a nil verdict `/ok`/`success` is sent and the session becomes active; on an error nothing is sent and the session goes to cleanup carrying that same error |
| `PushServer.AwaitTermination` | gpush.go:116-120 | on termination the offline hook is called exactly once with the id, nothing is sent, and cleanup follows with a nil result |
| `PushServer.RemoveHandle` | gpush.go:122-125 | the id is absent afterwards, every other entry is as before, and Push returns the result carried |
| `PushServer.PushSession` | gpush.go:86-126 | one whole Push leaves the registry as it found it on every path; a failed read or non-registration returns its error, sends nothing and calls no hook; a duplicate sends only `/error`/`dup id`, calls no hook and returns the send's result; a fresh id calls the online hook, then on success sends `/ok`, calls the offline hook once and returns nil, and on failure sends nothing, never calls the offline hook and returns the hook's error |
| `PushServer.Server.constructor` | gpush.go:159-167 | a new server has an empty registry, an online hook that accepts every id, and the default offline hook |
| `PushServer.Server.RegisterOnline` | gpush.go:79-81 | replaces the online hook and nothing else |
| `PushServer.Server.RegisterOffline` | gpush.go:82-84 | replaces the offline hook and nothing else |
| `PushServer.Server.SendCmd` | gpush.go:169-177 | the result is `Route` of the current registry; the registry is only read |
| `PushServer.Server.Push` | gpush.go:86-126 | the imperative Push computes exactly `PushSession`'s registry, result, responses and hook calls; the registry is unchanged afterwards; for a fresh id the online hook runs with this session's handle already inserted |
| `Interleaving.Apply` | gpush.go:86-126 | one step of one session or of one `SendCmd` call: no connection is ever forgotten, what a stream carries only grows, only the insert and the delete change the registry, and neither step of a `SendCmd` moves a session to another phase; a look-up writes nothing, and a write appends the looked-up command to its stream, whatever that session's phase, and retires the call |
| `Interleaving.RunOnlyAppends` | gpush.go:86-126 | over any run of interleaved steps, every connection stays known and what its stream carried is a prefix of what it carries afterwards |
| `Interleaving.ApplyPreservesInv` | gpush.go:103-124 | every step of every session keeps the invariant that each registry entry is the handle of a live session holding that id |
| `Interleaving.RunPreservesInv` | gpush.go:103-124 | the invariant holds after any run of interleaved session steps |
| `Interleaving.SendCmdReachesLiveSession` | gpush.go:170-175 | in every reachable state, a SendCmd look-up keeps a handle iff its id is registered, and that handle is of a session that holds the id and has not returned from Push, with the api and data unchanged |
| `Interleaving.ClosedSessionsAreUnregistered` | gpush.go:122-125 | in every reachable state, no registry entry points at a session that has returned from Push |
| `Interleaving.SendAppendsToStream` | gpush.go:169-177 | a SendCmd to a registered id whose write follows its look-up directly appends exactly the response with that api and data to the end of that session's stream and changes nothing else, neither the registry nor any other session nor the other calls in flight |
| `Interleaving.OneOnlineAcknowledged` | gpush.go:86-115 | one connection registering an id from an empty registry ends up registered, active and acknowledged with `/ok` |
| `Interleaving.WriteAfterReturn` | gpush.go:169-177 | a SendCmd that looks up that connection, which then ends, calls the offline hook and deletes its entry before the write, writes its command on the stream of a Push that has returned, with the registry empty |
| `Interleaving.RaceBothPassCheck` | gpush.go:103-108 | two connections with one id can both find the id free before either inserts |
| `Interleaving.RaceBothInsert` | gpush.go:109-111 | both then insert; the registry ends up with the second session's handle |
| `Interleaving.RaceBothAcknowledged` | gpush.go:112-115 | both then have the online hook called and are acknowledged with `/ok` |
| `Interleaving.RaceBothGoOnline` | gpush.go:109-115 | both insert, have the online hook called and are acknowledged with `/ok` |
| `Interleaving.RaceAdmitsTwoOnline` | gpush.go:103-115 | from an empty registry, two sessions with the same id are both active, both acknowledged and both announced to the online hook |
| `Interleaving.RaceLeavesActiveSessionUnreachable` | gpush.go:122-124 | when the second of them ends it deletes the id, and the first, still active, can no longer be reached by SendCmd |
| `PushClient.AddHandler` | gpush.go:142-148 | registering an API already in the table is refused (the panic) and never overwrites; otherwise exactly that one mapping is added and every other entry is kept |
| `PushClient.RegistrationError` | gpush.go:23-48 | registration succeeds iff the stream opens, the envelope is sent, a reply is received and it is not `/error`/`dup id`; that reply gives `DupId`; an open failure is returned as is, and send and receive failures are wrapped with their cause |
| `PushClient.ReplyVerdict` | gpush.go:45-48 | the registration fails with `DupId` iff the reply is `/error` with data `dup id`; any other reply is success |
| `PushClient.Dispatch` | gpush.go:51-62 | the receive loop makes at most one handler call per received message, only calls registered handlers, and stops with an error iff some receive failed |
| `PushClient.DispatchAppend` | gpush.go:134-139 | messages received before any error contribute their handler calls, in order, ahead of those of later messages |
| `PushClient.DispatchStopsAtFirstError` | gpush.go:134-139 | the loop returns the first receive error, with the calls made before it and none after |
| `PushClient.DispatchDeliversInOrder` | gpush.go:56-60 | when every message names a registered API, each calls its handler exactly once with its data unchanged, in the order received |
| `PushClient.DispatchIgnoresUnknown` | gpush.go:56-59 | messages for unregistered APIs are dropped without any effect on the calls or the outcome |
| `PushClient.Client.constructor` | gpush.go:155-157 | a new client has an empty handler table and no stream |
| `PushClient.Client.RegisterCmd` | gpush.go:142-148 | given an API not yet registered, adds exactly that mapping and changes nothing else (a repeated API is a precondition violation) |
| `PushClient.Client.ApiNames` | gpush.go:27-32 | the array filled by the counter loop lists every registered API name exactly once and nothing else |
| `PushClient.Client.RegisterClient` | gpush.go:20-49 | a failed stream open returns its error and sends nothing; otherwise the stream is kept, one envelope with api `/register`, the given id and exactly the table's names is sent, and the error is the wrapped send or receive failure, `DupId` for the duplicate reply, or nil |
| `PushClient.Client.ProcessMessage` | gpush.go:51-62 | a receive error is returned; a message for a registered API calls that handler once with its data; any other message is dropped; this is `Dispatch` of one message |
| `PushClient.Client.Run` | gpush.go:128-140 | a registration error is returned before any dispatch; otherwise the handler calls are exactly `Dispatch`'s, and Run returns the first receive error or is still listening when the messages run out; the client keeps the newly opened stream, or its old one if opening failed; the handler table is unchanged |
| `EndToEnd.HandshakeAgreement` | gpush.go:45-47 | the client's envelope is always a valid registration; the server's rejection of a live id is read by the client as `DupId`, and its `/ok` as success |
| `EndToEnd.DispatchOneMore` | gpush.go:51-62 | one more received command for a registered api adds exactly its handler call, with its data, at the end of the calls |
| `EndToEnd.SendCmdReachesHandler` | gpush.go:169-177 | in a world where every registry entry belongs to a live session, a command pushed to a registered id whose stream's first message is `/ok`, written right after its look-up, is appended to that stream; the client's handshake reads `/ok` and succeeds, and its receive loop calls the handler for the api once with the data unchanged, after the calls for everything before it |
| `EndToEnd.TwoSendsAppend` | gpush.go:169-177 | two commands pushed one after the other to a registered id are appended to its stream in that order, with the registry unchanged |
| `EndToEnd.SendCmdPreservesOrder` | gpush.go:169-177 | two commands pushed one after the other to such an id are appended to its stream in that order, and the client calls their handlers in that order, after the calls for everything before them |
| `EndToEnd.EarlyPushInserts` | gpush.go:87-111 | a connection registering an id from an empty registry inserts its handle and waits for the online hook |
| `EndToEnd.EarlyPushLands` | gpush.go:112-115 | a command looked up and written at that point lands on the stream first, and the `/ok` follows it |
| `EndToEnd.EarlyPushStream` | gpush.go:109-115 | a command pushed after a session's insert and before its online hook returns lands on the stream ahead of `/ok` |
| `EndToEnd.EarlyPushIsLost` | gpush.go:41-58 | for that stream the client's handshake takes the command as its reply and succeeds, and the receive loop then only sees `/ok`, so no handler is called: the command is lost |

## Left out

- The generated gRPC glue (`message/message_grpc.pb.go`) is not part of this model. Stream `Send`, `Recv` and opening are inputs that may fail. Connection set-up belongs to the transport and is left out, and so are `InitServer`'s registration of the service with the gRPC server and the client's stored connection.
- Locking (`sync.RWMutex`) and goroutines: each locked region is one atomic step, and sessions and `SendCmd` calls are interleaved event by event. Two writes on one stream at the same time, which gRPC does not allow, are not modelled: each write is one step. Uniqueness of ids under concurrency is not claimed, because the code does not provide it.
- The `select` on the stream context and on `quit` (`gpush.go:116-119`) is one terminate event. In the model the handle's send always returns. In the source a failed write blocks forever on `quit` (`gpush.go:98-99`), which nothing signals; that stall is not modelled.
- The result of the `/ok` send (`gpush.go:115`) is ignored by the code. The model only records that the response was sent.
- The results of sends made by `SendCmd`'s handle are not modelled. A `Delivery` records the write that was attempted.
- JSON marshalling: the registration payload is the list of names itself. The marshal-failure path (`gpush.go:34-36`) is left out, because marshalling a list of strings cannot fail.
- `response.Data = nil` (`gpush.go:113`) has no observable effect and is left out. So does `CloseSend` (`gpush.go:133`), whose result is ignored.
- Application hooks and handlers are foreign code. The online hook is a name plus a pure verdict function. The offline hook and each handler appear only by name, in the logs of calls.
- `PushServer.Server.Push`: the method runs one session alone, and the stream terminates as soon as the session is active. Commands pushed while it is active are covered by the `Interleaving` module and by `SendCmd`.
- `PushClient.Client.Run`: the received messages are a finite sequence. The source loops forever; when the sequence ends without an error, the model returns `Listening` instead of blocking.
- `PushClient.Client.RegisterCmd`: the panic on a repeated API is a precondition of the method. `AddHandler` models it as a refused registration. Calling `RegisterCmd` during `Run` is not modelled.
- The unused `client.mu` field is left out.
- The example server and client programs (interactive console, listening, dialling, the reconnect loop) are not part of this model.
