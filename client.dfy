/**
 * The client half of the push engine: the table of command handlers, the
 * registration handshake, and the receive loop that dispatches each
 * inbound command to its handler.
 */
module PushClient {
  import opened Wire

  /** Names an application handler `func([]byte)`. */
  type HandlerId = nat

  /** API name to handler. */
  type HandlerTable = map<string, HandlerId>

  /** One synchronous call of a handler with a payload. */
  datatype Invocation = Invocation(handler: HandlerId, data: Bytes)

  /** The handler calls a run of received messages causes, and the error that stopped it, if any. */
  datatype Trace = Trace(calls: seq<Invocation>, stop: Option<Error>)

  /** How `Run` ends: with an error, or still in its receive loop when the received messages run out. */
  datatype RunOutcome = Returned(err: Error) | Listening

  predicate NoError(msgs: seq<Result<Response>>) {
    forall i :: 0 <= i < |msgs| ==> msgs[i].Ok?
  }

  /** `names` lists every key once and nothing else. */
  ghost predicate ListsKeys(names: seq<string>, keys: set<string>) {
    |names| == |keys| &&
    (forall k :: k in keys <==> k in names) &&
    (forall i, j :: 0 <= i < j < |names| ==> names[i] != names[j])
  }

  /** The registration envelope for `id` from a client whose table has `keys`. */
  ghost predicate IsRegisterEnvelope(req: Request, id: string, keys: set<string>) {
    req.api == RegisterApi && req.id == id && req.data.NameList? && ListsKeys(req.data.names, keys)
  }

  /**
   * Registering a handler: None stands for the panic on an API that is
   * already in the table, which never overwrites it. Otherwise the table
   * gains exactly that one mapping.
   */
  function AddHandler(table: HandlerTable, api: string, h: HandlerId): (r: Option<HandlerTable>)
    ensures r.None? <==> api in table
    ensures r.Some? ==> r.value.Keys == table.Keys + {api} && r.value[api] == h
    ensures r.Some? ==> forall k :: k in table ==> r.value[k] == table[k]
  {
    if api in table then None else Some(table[api := h])
  }

  /**
   * How the client reads the server's reply to its registration: the
   * duplicate-id rejection, and only it, is an error; every other reply
   * counts as success.
   */
  function ReplyVerdict(reply: Response): (e: Option<Error>)
    ensures e == Some(DupId) <==> reply.api == ErrorApi && reply.data == DupIdText
    ensures e.None? <==> reply != DupResponse
  {
    if reply.api == ErrorApi && reply.data == DupIdText then Some(DupId) else None
  }

  /**
   * The error `registerClient` returns, given what opening the stream,
   * sending the envelope and receiving the reply yield. Registration
   * succeeds exactly when all three succeed and the reply is not the
   * duplicate-id rejection; a failure is reported with its cause.
   */
  function RegistrationError(openResult: Result<StreamRef>, sendErr: Option<Error>, reply: Result<Response>): (e: Option<Error>)
    ensures e.None? <==> openResult.Ok? && sendErr.None? && reply.Ok? && reply.value != DupResponse
    ensures openResult.Ok? && sendErr.None? && reply.Ok? ==> (e == Some(DupId) <==> reply.value == DupResponse)
    ensures openResult.Err? ==> e == Some(openResult.error)
    ensures openResult.Ok? && sendErr.Some? ==> e == Some(SendFailed(sendErr.value))
    ensures openResult.Ok? && sendErr.None? && reply.Err? ==> e == Some(RecvFailed(reply.error))
  {
    if openResult.Err? then Some(openResult.error)
    else if sendErr.Some? then Some(SendFailed(sendErr.value))
    else if reply.Err? then Some(RecvFailed(reply.error))
    else ReplyVerdict(reply.value)
  }

  /**
   * The receive loop over a run of received messages: each message whose
   * api is in the table calls that handler with its data, in order; any
   * other message is dropped; the first receive error stops the loop.
   */
  function Dispatch(table: HandlerTable, inbound: seq<Result<Response>>): (t: Trace)
    ensures |t.calls| <= |inbound|
    ensures forall i :: 0 <= i < |t.calls| ==> t.calls[i].handler in table.Values
    ensures t.stop.Some? <==> !NoError(inbound)
    decreases |inbound|
  {
    if inbound == [] then Trace([], None)
    else match inbound[0]
      case Err(e) => Trace([], Some(e))
      case Ok(m) =>
        var rest := Dispatch(table, inbound[1..]);
        assert NoError(inbound[1..]) ==> NoError(inbound) by {
          if NoError(inbound[1..]) {
            forall i | 0 <= i < |inbound| ensures inbound[i].Ok? {
              if i > 0 { assert inbound[i] == inbound[1..][i - 1]; }
            }
          }
        }
        assert !NoError(inbound[1..]) ==> !NoError(inbound) by {
          if !NoError(inbound[1..]) {
            var j :| 0 <= j < |inbound[1..]| && !inbound[1..][j].Ok?;
            assert inbound[j + 1] == inbound[1..][j];
          }
        }
        if m.api in table then Trace([Invocation(table[m.api], m.data)] + rest.calls, rest.stop)
        else rest
  }

  /** Messages received before any error contribute their calls in front of what follows. */
  lemma {:induction false} DispatchAppend(table: HandlerTable, a: seq<Result<Response>>, b: seq<Result<Response>>)
    requires NoError(a)
    ensures Dispatch(table, a + b) == Trace(Dispatch(table, a).calls + Dispatch(table, b).calls, Dispatch(table, b).stop)
    decreases |a|
  {
    if a == [] {
      assert a + b == b;
    } else {
      assert (a + b)[0] == a[0] && (a + b)[1..] == a[1..] + b;
      assert NoError(a[1..]) by {
        forall i | 0 <= i < |a[1..]| ensures a[1..][i].Ok? { assert a[1..][i] == a[i + 1]; }
      }
      DispatchAppend(table, a[1..], b);
    }
  }

  /** The loop ends at the first receive error, with the calls made before it and nothing after. */
  lemma DispatchStopsAtFirstError(table: HandlerTable, a: seq<Result<Response>>, e: Error, b: seq<Result<Response>>)
    requires NoError(a)
    ensures Dispatch(table, a + [Err(e)] + b) == Trace(Dispatch(table, a).calls, Some(e))
  {
    assert a + [Err(e)] + b == a + ([Err(e)] + b);
    DispatchAppend(table, a, [Err(e)] + b);
  }

  /**
   * When every received message names a registered API, each one calls
   * its handler with its data unchanged, exactly once and in the order received.
   */
  lemma {:induction false} DispatchDeliversInOrder(table: HandlerTable, inbound: seq<Result<Response>>)
    requires forall i :: 0 <= i < |inbound| ==> inbound[i].Ok? && inbound[i].value.api in table
    ensures |Dispatch(table, inbound).calls| == |inbound|
    ensures forall i :: 0 <= i < |inbound| ==>
              Dispatch(table, inbound).calls[i] == Invocation(table[inbound[i].value.api], inbound[i].value.data)
    decreases |inbound|
  {
    if inbound != [] {
      var rest := inbound[1..];
      assert forall i :: 0 <= i < |rest| ==> rest[i] == inbound[i + 1];
      DispatchDeliversInOrder(table, rest);
      var t := Dispatch(table, inbound);
      assert t.calls == [Invocation(table[inbound[0].value.api], inbound[0].value.data)] + Dispatch(table, rest).calls;
      forall i | 0 <= i < |inbound|
        ensures t.calls[i] == Invocation(table[inbound[i].value.api], inbound[i].value.data)
      {
        if i > 0 { assert t.calls[i] == Dispatch(table, rest).calls[i - 1]; }
      }
    }
  }

  /** The received messages with every message for an unregistered API removed. */
  function KnownOnly(table: HandlerTable, inbound: seq<Result<Response>>): seq<Result<Response>>
    decreases |inbound|
  {
    if inbound == [] then []
    else if inbound[0].Ok? && inbound[0].value.api !in table then KnownOnly(table, inbound[1..])
    else [inbound[0]] + KnownOnly(table, inbound[1..])
  }

  /** Messages for unregistered APIs are dropped without any effect on the loop. */
  lemma {:induction false} DispatchIgnoresUnknown(table: HandlerTable, inbound: seq<Result<Response>>)
    ensures Dispatch(table, inbound) == Dispatch(table, KnownOnly(table, inbound))
    decreases |inbound|
  {
    if inbound != [] {
      DispatchIgnoresUnknown(table, inbound[1..]);
      var k := KnownOnly(table, inbound);
      if !(inbound[0].Ok? && inbound[0].value.api !in table) {
        assert k[0] == inbound[0] && k[1..] == KnownOnly(table, inbound[1..]);
      }
    }
  }

  /**
   * A client: its handler table and, once the stream is open, the stream
   * it receives on. The connection it opens streams over is not modelled;
   * opening a stream is an input of `RegisterClient`.
   */
  class Client {
    var api: HandlerTable
    var rpcClient: Option<StreamRef>

    /** A client with an empty handler table and no stream yet. */
    constructor ()
      ensures api == map[] && rpcClient == None
    {
      api := map[];
      rpcClient := None;
    }

    /**
     * Add a handler before `Run`. Registering an API twice panics, so it is
     * a precondition here; otherwise exactly the one mapping is added.
     */
    method RegisterCmd(name: string, h: HandlerId)
      requires name !in api
      modifies this`api
      ensures AddHandler(old(api), name, h) == Some(api)
    {
      api := api[name := h];
    }

    /** The registered API names, each once, in the order the map yields them. */
    method ApiNames() returns (names: seq<string>)
      ensures ListsKeys(names, api.Keys)
    {
      var arr := new string[|api|];
      var i := 0;
      var rest := api.Keys;
      while rest != {}
        invariant rest <= api.Keys
        invariant i + |rest| == |api.Keys| == arr.Length
        invariant forall j :: 0 <= j < i ==> arr[j] in api && arr[j] !in rest
        invariant forall k :: k in api && k !in rest ==> k in arr[..i]
        invariant forall j, l :: 0 <= j < l < i ==> arr[j] != arr[l]
        decreases rest
      {
        var k :| k in rest;
        ghost var done := arr[..i];
        arr[i] := k;
        assert arr[..i + 1] == done + [k];
        i := i + 1;
        rest := rest - {k};
      }
      names := arr[..];
      assert names == arr[..i];
    }

    /**
     * Open a stream, send the registration envelope listing every
     * registered API name, and read the reply. `openResult`, `sendErr` and
     * `reply` are what opening, sending and receiving yield. Returns the
     * error and the envelopes sent.
     */
    method RegisterClient(id: string, openResult: Result<StreamRef>, sendErr: Option<Error>, reply: Result<Response>)
        returns (err: Option<Error>, sent: seq<Request>)
      modifies this`rpcClient
      ensures rpcClient == if openResult.Ok? then Some(openResult.value) else old(rpcClient)
      ensures err == RegistrationError(openResult, sendErr, reply)
      ensures openResult.Err? ==> sent == []
      ensures openResult.Ok? ==> |sent| == 1 && IsRegisterEnvelope(sent[0], id, api.Keys)
    {
      if openResult.Err? {
        return Some(openResult.error), [];
      }
      rpcClient := Some(openResult.value);
      var names := ApiNames();
      sent := [Request(RegisterApi, id, NameList(names))];
      if sendErr.Some? {
        return Some(SendFailed(sendErr.value)), sent;
      }
      if reply.Err? {
        return Some(RecvFailed(reply.error)), sent;
      }
      var resp := reply.value;
      if resp.api == ErrorApi && resp.data == DupIdText {
        return Some(DupId), sent;
      }
      err := None;
    }

    /**
     * Handle one received message: a receive error is returned; a message
     * whose api is registered calls that handler once with its data; any
     * other message is dropped.
     */
    method ProcessMessage(msg: Result<Response>) returns (err: Option<Error>, call: Option<Invocation>)
      requires rpcClient.Some?
      ensures err.Some? <==> msg.Err?
      ensures msg.Err? ==> err == Some(msg.error) && call.None?
      ensures call.Some? <==> msg.Ok? && msg.value.api in api
      ensures call.Some? ==> call.value == Invocation(api[msg.value.api], msg.value.data)
      ensures Dispatch(api, [msg]) == Trace(if call.Some? then [call.value] else [], err)
    {
      if msg.Err? {
        return Some(msg.error), None;
      }
      var req := msg.value;
      if req.api !in api {
        return None, None;
      }
      var f := api[req.api];
      call := Some(Invocation(f, req.data));
      err := None;
    }

    /**
     * Register as `id`, then dispatch received messages until one is a
     * receive error. `inbound` is what the successive receives yield; when
     * it runs out without an error the loop is still waiting (`Listening`).
     * Returns the outcome, the envelopes sent and the handler calls made.
     */
    method Run(id: string, openResult: Result<StreamRef>, sendErr: Option<Error>, reply: Result<Response>,
               inbound: seq<Result<Response>>)
        returns (outcome: RunOutcome, sent: seq<Request>, calls: seq<Invocation>)
      modifies this`rpcClient
      ensures rpcClient == if openResult.Ok? then Some(openResult.value) else old(rpcClient)
      ensures openResult.Err? ==> sent == []
      ensures openResult.Ok? ==> |sent| == 1 && IsRegisterEnvelope(sent[0], id, api.Keys)
      ensures RegistrationError(openResult, sendErr, reply).Some? ==>
                outcome == Returned(RegistrationError(openResult, sendErr, reply).value) && calls == []
      ensures RegistrationError(openResult, sendErr, reply).None? ==>
                calls == Dispatch(api, inbound).calls &&
                outcome == if Dispatch(api, inbound).stop.Some? then Returned(Dispatch(api, inbound).stop.value)
                           else Listening
    {
      var err;
      err, sent := RegisterClient(id, openResult, sendErr, reply);
      if err.Some? {
        return Returned(err.value), sent, [];
      }
      // closing the send half of the stream has no effect modelled here
      calls := [];
      var i := 0;
      while i < |inbound|
        invariant 0 <= i <= |inbound|
        invariant openResult.Ok? && rpcClient == Some(openResult.value)
        invariant NoError(inbound[..i])
        invariant calls == Dispatch(api, inbound[..i]).calls
      {
        var e, call := ProcessMessage(inbound[i]);
        DispatchAppend(api, inbound[..i], [inbound[i]]);
        assert inbound[..i] + [inbound[i]] == inbound[..i + 1];
        if e.Some? {
          DispatchAppend(api, inbound[..i], inbound[i..]);
          assert inbound[i..] == [inbound[i]] + inbound[i + 1..];
          assert inbound[..i] + inbound[i..] == inbound;
          return Returned(e.value), sent, calls;
        }
        if call.Some? {
          calls := calls + [call.value];
        }
        i := i + 1;
      }
      assert inbound[..i] == inbound;
      outcome := Listening;
    }
  }
}
