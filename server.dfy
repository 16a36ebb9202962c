/**
 * The server half of the push engine: the registry of live sessions, the
 * registration handshake run by `Push`, and the `SendCmd` primitive.
 *
 * `Push` runs in one goroutine per connection and touches the shared
 * registry in three separately locked regions. It is modelled here twice
 * over: as pure steps, one per region (and one per hook call or wait in
 * between), which the module Interleaving interleaves across sessions; and
 * as the method `Server.Push`, the same code run start to finish, whose
 * specification is the sequential composition `PushSession` of the steps.
 */
module PushServer {
  import opened Wire

  /** Names an application callback, so that the hook-call log can say which one ran. */
  type HookName = nat

  const DefaultHook: HookName := 0

  /**
   * An online hook: its name and the verdict it returns for an id and the
   * handshake data (None stands for a nil error).
   */
  datatype OnlineHook = OnlineHook(name: HookName, verdict: (string, Payload) -> Option<Error>)

  /** One invocation of an application hook. */
  datatype HookCall =
    | OnlineCall(hook: HookName, id: string, data: Payload)
    | OfflineCall(hook: HookName, id: string)

  /**
   * The per-session send function stored in the registry. It is a closure
   * over the session's stream; calling it writes one response on that stream.
   */
  datatype Handle = Handle(stream: StreamRef)

  /** The registry: client id to the handle of the session that holds it. */
  type Registry = map<string, Handle>

  /** One call of a stored handle: the response written on the stream. */
  datatype Delivery = Delivery(stream: StreamRef, msg: Response)

  /** Where one `Push` invocation is in its life cycle. */
  datatype Phase =
    | AwaitingRegister                           // nothing read yet
    | Inserting(id: string, data: Payload)       // the duplicate check found the id free
    | Activating(id: string, data: Payload)      // own handle inserted, online hook not yet called
    | Active(id: string)                         // acknowledged, waiting for termination
    | Closing(id: string, result: Option<Error>) // about to remove the registry entry
    | Closed(result: Option<Error>)              // Push has returned result

  /** The local state of one `Push` invocation and what it has done so far. */
  datatype Session = Session(stream: StreamRef, phase: Phase, sent: seq<Response>, calls: seq<HookCall>)

  function NewSession(stream: StreamRef): Session {
    Session(stream, AwaitingRegister, [], [])
  }

  /**
   * True of the phases in which the session has inserted its handle under
   * `id` and has not yet removed it.
   */
  predicate Holds(p: Phase, id: string) {
    match p
    case Activating(i, _) => i == id
    case Active(i) => i == id
    case Closing(i, _) => i == id
    case _ => false
  }

  /**
   * `SendCmd`'s look-up: a registered id yields exactly one call of its
   * handle with the api and data unchanged; an unknown id yields nothing.
   */
  function Route(reg: Registry, id: string, api: string, data: Bytes): (d: Option<Delivery>)
    ensures d.Some? <==> id in reg
    ensures d.Some? ==> d.value.stream == reg[id].stream && d.value.msg.api == api && d.value.msg.data == data
  {
    if id in reg then Some(Delivery(reg[id].stream, Response(api, data))) else None
  }

  /**
   * Read the first envelope and check the registry for its id (the shared
   * lock region). The registry is only read, and no hook runs. A failed
   * read or a non-registration ends the session with an error and sends
   * nothing; a live id ends it with exactly one `/error`/`dup id` response
   * and the result of sending it; a free id lets it go on to insert.
   */
  function ReadFirst(reg: Registry, s: Session, first: Result<Request>, dupSend: Option<Error>): (r: Session)
    requires s.phase == AwaitingRegister
    ensures r.stream == s.stream && r.calls == s.calls
    ensures r.phase.Inserting? <==> IsRegistration(first) && first.value.id !in reg
    ensures r.phase.Inserting? ==> r.phase.id == first.value.id && r.phase.data == first.value.data && r.sent == s.sent
    ensures first.Err? ==> r.phase == Closed(Some(first.error)) && r.sent == s.sent
    ensures first.Ok? && !IsRegistration(first) ==>
              r.phase == Closed(Some(NoRegisterProto(first.value.api))) && r.sent == s.sent
    ensures IsRegistration(first) && first.value.id in reg ==>
              r.phase == Closed(dupSend) && r.sent == s.sent + [DupResponse]
  {
    match first
    case Err(e) => s.(phase := Closed(Some(e)))
    case Ok(req) =>
      if req.api != RegisterApi then s.(phase := Closed(Some(NoRegisterProto(req.api))))
      else if req.id in reg then s.(phase := Closed(dupSend), sent := s.sent + [DupResponse])
      else s.(phase := Inserting(req.id, req.data))
  }

  datatype Step = Step(reg: Registry, session: Session)

  /**
   * Insert the session's handle under its id (the first exclusive region).
   * Afterwards the id maps to this session's stream and every other entry
   * is as before.
   */
  function InsertHandle(reg: Registry, s: Session): (r: Step)
    requires s.phase.Inserting?
    ensures r.reg.Keys == reg.Keys + {s.phase.id}
    ensures r.reg[s.phase.id] == Handle(s.stream)
    ensures forall k :: k in reg && k != s.phase.id ==> r.reg[k] == reg[k]
    ensures r.session == s.(phase := Activating(s.phase.id, s.phase.data))
  {
    Step(reg[s.phase.id := Handle(s.stream)], s.(phase := Activating(s.phase.id, s.phase.data)))
  }

  /**
   * Call the online hook with the id and the handshake data. On a nil
   * verdict send `/ok`/`success` and become active; on an error send
   * nothing and go straight to cleanup, carrying that same error.
   */
  function CallOnline(online: OnlineHook, s: Session): (r: Session)
    requires s.phase.Activating?
    ensures r.stream == s.stream
    ensures r.calls == s.calls + [OnlineCall(online.name, s.phase.id, s.phase.data)]
    ensures online.verdict(s.phase.id, s.phase.data).None? ==>
              r.phase == Active(s.phase.id) && r.sent == s.sent + [OkResponse]
    ensures online.verdict(s.phase.id, s.phase.data).Some? ==>
              r.phase == Closing(s.phase.id, online.verdict(s.phase.id, s.phase.data)) && r.sent == s.sent
  {
    var id, data := s.phase.id, s.phase.data;
    var v := online.verdict(id, data);
    var called := s.(calls := s.calls + [OnlineCall(online.name, id, data)]);
    if v.None? then called.(phase := Active(id), sent := s.sent + [OkResponse])
    else called.(phase := Closing(id, v))
  }

  /**
   * The stream's context is done: call the offline hook once with the id
   * and go to cleanup with a nil result.
   */
  function AwaitTermination(offline: HookName, s: Session): (r: Session)
    requires s.phase.Active?
    ensures r.stream == s.stream && r.sent == s.sent
    ensures r.calls == s.calls + [OfflineCall(offline, s.phase.id)]
    ensures r.phase == Closing(s.phase.id, None)
  {
    s.(phase := Closing(s.phase.id, None), calls := s.calls + [OfflineCall(offline, s.phase.id)])
  }

  /**
   * Delete the id from the registry (the second exclusive region) and
   * return the result carried so far. The id is absent afterwards and
   * every other entry is as before.
   */
  function RemoveHandle(reg: Registry, s: Session): (r: Step)
    requires s.phase.Closing?
    ensures r.reg.Keys == reg.Keys - {s.phase.id}
    ensures forall k :: k in r.reg ==> r.reg[k] == reg[k]
    ensures r.session == s.(phase := Closed(s.phase.result))
  {
    Step(reg - {s.phase.id}, s.(phase := Closed(s.phase.result)))
  }

  /**
   * One whole `Push` with no other session running and the stream
   * terminating as soon as the session is active. Whatever the path, the
   * registry ends as it began, and the result, the responses and the hook
   * calls are those the handshake promises.
   */
  function PushSession(reg: Registry, online: OnlineHook, offline: HookName, stream: StreamRef,
                       first: Result<Request>, dupSend: Option<Error>): (r: Step)
    ensures r.reg == reg
    ensures r.session.stream == stream && r.session.phase.Closed?
    ensures !IsRegistration(first) ==> r.session.sent == [] && r.session.calls == []
    ensures first.Err? ==> r.session.phase.result == Some(first.error)
    ensures first.Ok? && !IsRegistration(first) ==>
              r.session.phase.result == Some(NoRegisterProto(first.value.api))
    ensures IsRegistration(first) && first.value.id in reg ==>
              r.session.sent == [DupResponse] && r.session.calls == [] && r.session.phase.result == dupSend
    ensures IsRegistration(first) && first.value.id !in reg ==>
              var id, data := first.value.id, first.value.data;
              var v := online.verdict(id, data);
              r.session.phase.result == v &&
              r.session.sent == (if v.None? then [OkResponse] else []) &&
              r.session.calls == [OnlineCall(online.name, id, data)] +
                                 (if v.None? then [OfflineCall(offline, id)] else [])
  {
    var s0 := ReadFirst(reg, NewSession(stream), first, dupSend);
    if !s0.phase.Inserting? then Step(reg, s0)
    else
      var ins := InsertHandle(reg, s0);
      var s1 := CallOnline(online, ins.session);
      var s2 := if s1.phase.Active? then AwaitTermination(offline, s1) else s1;
      var fin := RemoveHandle(ins.reg, s2);
      assert fin.reg == reg;
      fin
  }

  /**
   * The server object: the registry and the two hooks. One locked region of
   * the source is one step of a method here; locking itself is not modelled.
   */
  class Server {
    var cbCmd: Registry
    var online: OnlineHook
    var offline: HookName

    /** A server with an empty registry, an online hook that accepts every id and an offline hook that does nothing. */
    constructor ()
      ensures cbCmd == map[]
      ensures online.name == DefaultHook && offline == DefaultHook
      ensures forall id, data :: online.verdict(id, data) == None
    {
      cbCmd := map[];
      online := OnlineHook(DefaultHook, (id: string, data: Payload) => None);
      offline := DefaultHook;
    }

    method RegisterOnline(hook: OnlineHook)
      modifies this`online
      ensures online == hook
    {
      online := hook;
    }

    method RegisterOffline(hook: HookName)
      modifies this`offline
      ensures offline == hook
    {
      offline := hook;
    }

    /**
     * Push a command to a client: if the id is registered, call its handle
     * once with api and data; otherwise do nothing. The registry is only
     * read. The result is the handle call to make; the source makes it
     * after releasing the lock, which `Interleaving` models as a step of
     * its own.
     */
    method SendCmd(id: string, api: string, data: Bytes) returns (d: Option<Delivery>)
      ensures d == Route(cbCmd, id, api, data)
    {
      if id !in cbCmd {
        return None;
      }
      var f := cbCmd[id];
      d := Some(Delivery(f.stream, Response(api, data)));
    }

    /**
     * Serve one connection on `stream` to its end. `first` is what the
     * first Recv yields and `dupSend` what sending the duplicate rejection
     * yields; the stream terminates as soon as the session is active.
     * Returns Push's error result, the responses written on the stream, the
     * hook calls in order, and (ghost) the registry the online hook ran with.
     */
    method Push(stream: StreamRef, first: Result<Request>, dupSend: Option<Error>)
        returns (err: Option<Error>, sent: seq<Response>, calls: seq<HookCall>, ghost regAtOnline: Registry)
      modifies this`cbCmd
      ensures var r := PushSession(old(cbCmd), online, offline, stream, first, dupSend);
              cbCmd == r.reg && r.session.phase == Closed(err) && sent == r.session.sent && calls == r.session.calls
      ensures cbCmd == old(cbCmd)
      ensures IsRegistration(first) && first.value.id !in old(cbCmd) ==>
                regAtOnline == old(cbCmd)[first.value.id := Handle(stream)]
    {
      sent, calls, regAtOnline := [], [], cbCmd;
      if first.Err? {
        return Some(first.error), sent, calls, regAtOnline;
      }
      var req := first.value;
      if req.api != RegisterApi {
        return Some(NoRegisterProto(req.api)), sent, calls, regAtOnline;
      }
      var id := req.id;
      if id in cbCmd {
        sent := sent + [DupResponse];
        return dupSend, sent, calls, regAtOnline;
      }
      cbCmd := cbCmd[id := Handle(stream)];
      regAtOnline := cbCmd;
      err := online.verdict(id, req.data);
      calls := calls + [OnlineCall(online.name, id, req.data)];
      if err.None? {
        sent := sent + [OkResponse];
        // the stream's context is done here
        calls := calls + [OfflineCall(offline, id)];
      }
      cbCmd := cbCmd - {id};
    }
  }
}
