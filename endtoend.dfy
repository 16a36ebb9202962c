/**
 * The two halves together: what the server writes on a stream and what
 * the client's handshake and receive loop make of it.
 */
module EndToEnd {
  import opened Wire
  import opened PushServer
  import opened PushClient
  import opened Interleaving

  /**
   * The server's answer to a client's registration envelope, as the client
   * reads it: a live id draws the duplicate rejection, which the client
   * reports as `DupId`; a free id accepted by the online hook draws `/ok`,
   * which the client takes as success. The envelope is never refused as a
   * protocol error: a free id always goes on to insert its handle.
   */
  lemma HandshakeAgreement(reg: Registry, online: OnlineHook, stream: StreamRef, req: Request,
                           keys: set<string>, dupSend: Option<Error>)
    requires IsRegisterEnvelope(req, req.id, keys)
    ensures var s := ReadFirst(reg, NewSession(stream), Ok(req), dupSend);
            s.phase.Inserting? <==> req.id !in reg
    ensures var s := ReadFirst(reg, NewSession(stream), Ok(req), dupSend);
            req.id in reg ==> s.sent == [DupResponse] && ReplyVerdict(s.sent[0]) == Some(DupId)
    ensures var s := ReadFirst(reg, NewSession(stream), Ok(req), dupSend);
            req.id !in reg && online.verdict(req.id, req.data).None? ==>
              var a := CallOnline(online, InsertHandle(reg, s).session);
              a.sent == [OkResponse] && ReplyVerdict(a.sent[0]).None?
  {
  }

  /** What the client's stream yields when every receive succeeds. */
  function Oks(rs: seq<Response>): (r: seq<Result<Response>>)
    ensures |r| == |rs| && NoError(r)
    ensures forall i :: 0 <= i < |rs| ==> r[i] == Ok(rs[i])
  {
    seq(|rs|, i requires 0 <= i < |rs| => Ok(rs[i]))
  }

  /** A received command for a known api adds its one handler call at the end. */
  lemma DispatchOneMore(table: HandlerTable, rs: seq<Response>, m: Response)
    requires m.api in table
    ensures Dispatch(table, Oks(rs + [m])) == Trace(Dispatch(table, Oks(rs)).calls + [Invocation(table[m.api], m.data)], None)
  {
    assert Oks(rs + [m]) == Oks(rs) + Oks([m]);
    DispatchAppend(table, Oks(rs), Oks([m]));
    assert Oks([m])[1..] == [];
  }

  /**
   * A command pushed to a registered id whose stream already carries the
   * `/ok` acknowledgement first, with its write right after its look-up:
   * the client's handshake reads that `/ok` and succeeds, and its receive
   * loop then makes the handler call for the command, with the data
   * unchanged, right after the calls for whatever the stream carried
   * before it.
   */
  lemma SendCmdReachesHandler(online: OnlineHook, offline: HookName, w: World, c: CallId,
                              id: string, api: string, data: Bytes, table: HandlerTable)
    requires Inv(w) && id in w.reg && c !in w.pending && api in table
    requires var s := w.sessions[w.reg[id].stream]; |s.sent| > 0 && s.sent[0] == OkResponse
    ensures var st := w.reg[id].stream;
            var r := Run(online, offline, w, SendCmdSteps(c, id, api, data));
            r.Some? && st in r.value.sessions &&
            var s, s' := w.sessions[st], r.value.sessions[st];
            s'.sent == s.sent + [Response(api, data)] &&
            RegistrationError(Ok(st), None, Ok(s'.sent[0])).None? &&
            Dispatch(table, Oks(s'.sent[1..])) ==
              Trace(Dispatch(table, Oks(s.sent[1..])).calls + [Invocation(table[api], data)], None)
  {
    var s := w.sessions[w.reg[id].stream];
    SendAppendsToStream(online, offline, w, c, id, api, data);
    assert (s.sent + [Response(api, data)])[1..] == s.sent[1..] + [Response(api, data)];
    DispatchOneMore(table, s.sent[1..], Response(api, data));
  }

  /** Two commands pushed one after the other to a registered id land on its stream in that order. */
  lemma TwoSendsAppend(online: OnlineHook, offline: HookName, w: World, id: string,
                       c1: CallId, api1: string, data1: Bytes, c2: CallId, api2: string, data2: Bytes)
    requires Inv(w) && id in w.reg && c1 !in w.pending && c2 !in w.pending
    ensures var st := w.reg[id].stream;
            var r := Run(online, offline, w, SendCmdSteps(c1, id, api1, data1) + SendCmdSteps(c2, id, api2, data2));
            r.Some? && st in w.sessions && st in r.value.sessions && r.value.reg == w.reg &&
            r.value.sessions[st].sent == w.sessions[st].sent + [Response(api1, data1), Response(api2, data2)]
  {
    var st := w.reg[id].stream;
    var steps1, steps2 := SendCmdSteps(c1, id, api1, data1), SendCmdSteps(c2, id, api2, data2);
    var m1, m2 := Response(api1, data1), Response(api2, data2);
    var s := w.sessions[st];
    SendAppendsToStream(online, offline, w, c1, id, api1, data1);
    var w1 := w.(sessions := w.sessions[st := s.(sent := s.sent + [m1])]);
    RunPreservesInv(online, offline, w, steps1);
    SendAppendsToStream(online, offline, w1, c2, id, api2, data2);
    RunAppend(online, offline, w, steps1, steps2);
    assert s.sent + [m1] + [m2] == s.sent + [m1, m2];
  }

  /**
   * Two commands pushed one after the other to an acknowledged id are
   * appended to the same stream in that order, and the client's receive
   * loop calls their handlers in that order after everything before them.
   */
  lemma SendCmdPreservesOrder(online: OnlineHook, offline: HookName, w: World, id: string,
                              c1: CallId, api1: string, data1: Bytes,
                              c2: CallId, api2: string, data2: Bytes, table: HandlerTable)
    requires Inv(w) && id in w.reg && c1 !in w.pending && c2 !in w.pending && api1 in table && api2 in table
    requires var s := w.sessions[w.reg[id].stream]; |s.sent| > 0 && s.sent[0] == OkResponse
    ensures var st := w.reg[id].stream;
            var r := Run(online, offline, w, SendCmdSteps(c1, id, api1, data1) + SendCmdSteps(c2, id, api2, data2));
            r.Some? && st in r.value.sessions &&
            r.value.sessions[st].sent == w.sessions[st].sent + [Response(api1, data1), Response(api2, data2)] &&
            Dispatch(table, Oks(r.value.sessions[st].sent[1..])) ==
              Trace(Dispatch(table, Oks(w.sessions[st].sent[1..])).calls +
                    [Invocation(table[api1], data1), Invocation(table[api2], data2)], None)
  {
    TwoSendsAppend(online, offline, w, id, c1, api1, data1, c2, api2, data2);
    var rest := w.sessions[w.reg[id].stream].sent[1..];
    var m1, m2 := Response(api1, data1), Response(api2, data2);
    assert (w.sessions[w.reg[id].stream].sent + [m1, m2])[1..] == rest + [m1] + [m2];
    DispatchOneMore(table, rest, m1);
    DispatchOneMore(table, rest + [m1], m2);
    assert Dispatch(table, Oks(rest)).calls + [Invocation(table[api1], data1)] + [Invocation(table[api2], data2)] ==
           Dispatch(table, Oks(rest)).calls + [Invocation(table[api1], data1), Invocation(table[api2], data2)];
  }

  const Alice: Bytes := [65, 108, 105, 99, 101]

  /** A connection that has inserted its handle but not yet been acknowledged, receiving a push. */
  const EarlyPush: seq<Event> :=
    [Connect(1), First(1, Hello, None), Insert(1), Lookup(0, "dup1", "/SayHello", Alice), Write(0), Online(1)]

  /** The early push's connection once both its `/SayHello` command and `/ok` are on the stream. */
  const EarlyPushed: World :=
    Idle(map["dup1" := Handle(1)],
         map[1 := Session(1, Active("dup1"), [Response("/SayHello", Alice), OkResponse],
                          [OnlineCall(DefaultHook, "dup1", NameList([]))])])

  /** The connection inserts its handle, not yet acknowledged. */
  const EarlyInserted: World :=
    Idle(map["dup1" := Handle(1)], map[1 := Session(1, Activating("dup1", NameList([])), [], [])])

  lemma EarlyPushInserts()
    ensures Run(Accept, DefaultHook, Empty, EarlyPush[..3]) == Some(EarlyInserted)
  {
    var w0 := Empty;
    var w1 := Apply(Accept, DefaultHook, w0, Connect(1));
    assert w1 == Idle(map[], map[1 := NewSession(1)]);
    var w2 := Apply(Accept, DefaultHook, w1, First(1, Hello, None));
    assert w2 == Idle(map[], map[1 := Session(1, Inserting("dup1", NameList([])), [], [])]);
    assert Apply(Accept, DefaultHook, w2, Insert(1)) == EarlyInserted;
    RunCons(Accept, DefaultHook, w2, Insert(1), []);
    RunCons(Accept, DefaultHook, w1, First(1, Hello, None), [Insert(1)]);
    RunCons(Accept, DefaultHook, w0, Connect(1), [First(1, Hello, None), Insert(1)]);
    assert EarlyPush[..3] == [Connect(1), First(1, Hello, None), Insert(1)];
  }

  /** Then the push lands on its stream, and only then does the online hook accept. */
  lemma EarlyPushLands()
    ensures Run(Accept, DefaultHook, EarlyInserted, EarlyPush[3..]) == Some(EarlyPushed)
  {
    var data := NameList([]);
    var cmd := Response("/SayHello", Alice);
    var w3 := EarlyInserted;
    assert Route(w3.reg, "dup1", "/SayHello", Alice) == Some(Delivery(1, cmd));
    var w4 := World(w3.reg, w3.sessions, map[0 := Delivery(1, cmd)]);
    assert Apply(Accept, DefaultHook, w3, Lookup(0, "dup1", "/SayHello", Alice)) == w4;
    assert w3.sessions[1].sent + [cmd] == [cmd];
    assert map[0 := Delivery(1, cmd)] - {0} == map[];
    var w5 := Idle(map["dup1" := Handle(1)], map[1 := Session(1, Activating("dup1", data), [cmd], [])]);
    assert Apply(Accept, DefaultHook, w4, Write(0)) == w5;
    assert Accept.verdict("dup1", data) == None;
    assert [cmd] + [OkResponse] == [cmd, OkResponse];
    assert [] + [OnlineCall(DefaultHook, "dup1", data)] == [OnlineCall(DefaultHook, "dup1", data)];
    assert CallOnline(Accept, w5.sessions[1]) == EarlyPushed.sessions[1];
    assert Apply(Accept, DefaultHook, w5, Online(1)) == EarlyPushed;
    RunCons(Accept, DefaultHook, w5, Online(1), []);
    RunCons(Accept, DefaultHook, w4, Write(0), [Online(1)]);
    RunCons(Accept, DefaultHook, w3, Lookup(0, "dup1", "/SayHello", Alice), [Write(0), Online(1)]);
    assert EarlyPush[3..] == [Lookup(0, "dup1", "/SayHello", Alice), Write(0), Online(1)];
  }

  /** The whole early push: insert, then the push lands, then `/ok`. */
  lemma EarlyPushStream()
    ensures Run(Accept, DefaultHook, Empty, EarlyPush) == Some(EarlyPushed)
  {
    EarlyPushInserts();
    EarlyPushLands();
    RunAppend(Accept, DefaultHook, Empty, EarlyPush[..3], EarlyPush[3..]);
    assert EarlyPush[..3] + EarlyPush[3..] == EarlyPush;
  }

  /**
   * A command pushed between the insert and the `/ok` reaches the stream
   * before `/ok`. The client's handshake reads the command as its reply and
   * succeeds; its receive loop then reads `/ok`, which names no handler, so
   * the pushed command never reaches its handler.
   */
  lemma EarlyPushIsLost(table: HandlerTable)
    requires "/SayHello" in table && OkApi !in table
    ensures var r := Run(Accept, DefaultHook, Empty, EarlyPush);
            r.Some? && 1 in r.value.sessions &&
            r.value.sessions[1].phase == Active("dup1") &&
            r.value.sessions[1].sent == [Response("/SayHello", Alice), OkResponse] &&
            RegistrationError(Ok(1), None, Ok(r.value.sessions[1].sent[0])).None? &&
            Dispatch(table, Oks(r.value.sessions[1].sent[1..])) == Trace([], None)
  {
    EarlyPushStream();
    var sent := EarlyPushed.sessions[1].sent;
    assert sent[1..] == [OkResponse];
    assert Oks([OkResponse]) == [Ok(OkResponse)];
    assert Dispatch(table, [Ok(OkResponse)]) == Trace([], None) by {
      assert [Ok(OkResponse)][1..] == [];
    }
  }
}
