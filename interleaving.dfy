/**
 * Many `Push` sessions running at once against one registry. Each event is
 * one step of one session (one locked region, one hook call, or the wait
 * for termination), the arrival of a new connection, or one of the two
 * steps of a `SendCmd` call: the look-up of the id under the read lock,
 * which keeps the handle it finds, and the later call of that handle,
 * which writes the command on its stream. What a session's stream
 * carries, in order, is its `sent`.
 *
 * The code guarantees that the registry never holds a stale handle: every
 * entry belongs to a session of that id that has inserted it and not yet
 * removed it, so a look-up only ever finds a live session. It does NOT
 * guarantee that the write which follows still reaches a live session
 * (WriteAfterReturn), that an active session's id is registered, nor that
 * two sessions of one id cannot both go online: the duplicate check and
 * the insert are separate regions (RaceAdmitsTwoOnline).
 */
module Interleaving {
  import opened Wire
  import opened PushServer

  /** A `SendCmd` call, told apart from the others running at the same time. */
  type CallId = nat

  /**
   * The registry, the local state of every connection by its stream, and
   * the handle each `SendCmd` call has looked up and not yet called.
   */
  datatype World = World(reg: Registry, sessions: map<StreamRef, Session>, pending: map<CallId, Delivery>)

  /** A world in which no `SendCmd` call is between its look-up and its write. */
  function Idle(reg: Registry, sessions: map<StreamRef, Session>): World {
    World(reg, sessions, map[])
  }

  datatype Event =
    | Connect(stream: StreamRef)
    | First(stream: StreamRef, first: Result<Request>, dupSend: Option<Error>)
    | Insert(stream: StreamRef)
    | Online(stream: StreamRef)
    | Terminate(stream: StreamRef)
    | Remove(stream: StreamRef)
    | Lookup(call: CallId, id: string, api: string, data: Bytes)
    | Write(call: CallId)

  const Empty: World := World(map[], map[], map[])

  /** An event can happen when its session exists and is at the matching point of `Push`. */
  predicate Enabled(w: World, e: Event) {
    match e
    case Connect(st) => st !in w.sessions
    case First(st, _, _) => st in w.sessions && w.sessions[st].phase == AwaitingRegister
    case Insert(st) => st in w.sessions && w.sessions[st].phase.Inserting?
    case Online(st) => st in w.sessions && w.sessions[st].phase.Activating?
    case Terminate(st) => st in w.sessions && w.sessions[st].phase.Active?
    case Remove(st) => st in w.sessions && w.sessions[st].phase.Closing?
    case Lookup(c, _, _, _) => c !in w.pending
    case Write(c) => c in w.pending && w.pending[c].stream in w.sessions
  }

  /**
   * One event. No connection is ever forgotten, what a stream carries only
   * grows, only the insert and the delete change the registry, and neither
   * step of a `SendCmd` moves a session to another phase. A look-up writes
   * nothing; a write appends the looked-up command to its stream, whatever
   * the session has done since.
   */
  function Apply(online: OnlineHook, offline: HookName, w: World, e: Event): (r: World)
    requires Enabled(w, e)
    ensures r.sessions.Keys == w.sessions.Keys + (if e.Connect? then {e.stream} else {})
    ensures forall st :: st in w.sessions ==> w.sessions[st].sent <= r.sessions[st].sent
    ensures !e.Insert? && !e.Remove? ==> r.reg == w.reg
    ensures e.Lookup? || e.Write? ==> forall st :: st in w.sessions ==> r.sessions[st].phase == w.sessions[st].phase
    ensures e.Lookup? ==> r.sessions == w.sessions
    ensures e.Write? ==> var d := w.pending[e.call];
              r.sessions == w.sessions[d.stream := w.sessions[d.stream].(sent := w.sessions[d.stream].sent + [d.msg])] &&
              r.pending == w.pending - {e.call}
  {
    match e
    case Connect(st) => w.(sessions := w.sessions[st := NewSession(st)])
    case First(st, first, dupSend) =>
      w.(sessions := w.sessions[st := ReadFirst(w.reg, w.sessions[st], first, dupSend)])
    case Insert(st) =>
      var r := InsertHandle(w.reg, w.sessions[st]);
      w.(reg := r.reg, sessions := w.sessions[st := r.session])
    case Online(st) => w.(sessions := w.sessions[st := CallOnline(online, w.sessions[st])])
    case Terminate(st) => w.(sessions := w.sessions[st := AwaitTermination(offline, w.sessions[st])])
    case Remove(st) =>
      var r := RemoveHandle(w.reg, w.sessions[st]);
      w.(reg := r.reg, sessions := w.sessions[st := r.session])
    case Lookup(c, id, api, data) =>
      var d := Route(w.reg, id, api, data);
      if d.Some? then w.(pending := w.pending[c := d.value]) else w
    case Write(c) =>
      var d := w.pending[c];
      var s := w.sessions[d.stream];
      w.(sessions := w.sessions[d.stream := s.(sent := s.sent + [d.msg])], pending := w.pending - {c})
  }

  /** The world after a run of events, or None if some event was not enabled when it came. */
  function Run(online: OnlineHook, offline: HookName, w: World, events: seq<Event>): Option<World>
    decreases |events|
  {
    if events == [] then Some(w)
    else if !Enabled(w, events[0]) then None
    else Run(online, offline, Apply(online, offline, w, events[0]), events[1..])
  }

  /**
   * After any run, every connection of `w` is still there, and what its
   * stream carried is a prefix of what it carries then: nothing written
   * on a stream is ever taken back or reordered.
   */
  lemma {:induction false} RunOnlyAppends(online: OnlineHook, offline: HookName, w: World, events: seq<Event>)
    requires Run(online, offline, w, events).Some?
    ensures forall st :: st in w.sessions ==>
              st in Run(online, offline, w, events).value.sessions &&
              w.sessions[st].sent <= Run(online, offline, w, events).value.sessions[st].sent
    decreases |events|
  {
    if events != [] {
      var w' := Apply(online, offline, w, events[0]);
      RunOnlyAppends(online, offline, w', events[1..]);
    }
  }

  /**
   * Every session is filed under its own stream, every looked-up handle
   * belongs to a known connection, and every registry entry is the handle
   * of a session that holds that id.
   */
  ghost predicate Inv(w: World) {
    (forall st :: st in w.sessions ==> w.sessions[st].stream == st) &&
    (forall c :: c in w.pending ==> w.pending[c].stream in w.sessions) &&
    (forall id :: id in w.reg ==>
       w.reg[id].stream in w.sessions && Holds(w.sessions[w.reg[id].stream].phase, id))
  }

  lemma ApplyPreservesInv(online: OnlineHook, offline: HookName, w: World, e: Event)
    requires Inv(w) && Enabled(w, e)
    ensures Inv(Apply(online, offline, w, e))
  {
  }

  lemma {:induction false} RunPreservesInv(online: OnlineHook, offline: HookName, w: World, events: seq<Event>)
    requires Inv(w)
    ensures Run(online, offline, w, events).Some? ==> Inv(Run(online, offline, w, events).value)
    decreases |events|
  {
    if events != [] && Enabled(w, events[0]) {
      ApplyPreservesInv(online, offline, w, events[0]);
      RunPreservesInv(online, offline, Apply(online, offline, w, events[0]), events[1..]);
    }
  }

  /**
   * In every reachable world, the look-up of a `SendCmd` keeps a handle
   * exactly when its id is registered, and then the handle is that of a
   * session that holds the id, so not of one that has returned from
   * `Push`, and the command it keeps is the api and data unchanged.
   */
  lemma {:induction false} SendCmdReachesLiveSession(online: OnlineHook, offline: HookName, events: seq<Event>,
                                                     c: CallId, id: string, api: string, data: Bytes)
    requires Run(online, offline, Empty, events).Some?
    requires c !in Run(online, offline, Empty, events).value.pending
    ensures var w := Run(online, offline, Empty, events).value;
            var w' := Apply(online, offline, w, Lookup(c, id, api, data));
            (c in w'.pending <==> id in w.reg) &&
            (c in w'.pending ==>
               w'.pending[c].stream in w.sessions && Holds(w.sessions[w'.pending[c].stream].phase, id) &&
               w'.pending[c].msg == Response(api, data))
  {
    RunPreservesInv(online, offline, Empty, events);
  }

  /** Every session of a reachable world that has returned from `Push` has no registry entry. */
  lemma {:induction false} ClosedSessionsAreUnregistered(online: OnlineHook, offline: HookName, events: seq<Event>,
                                                         st: StreamRef)
    requires Run(online, offline, Empty, events).Some?
    requires st in Run(online, offline, Empty, events).value.sessions
    requires Run(online, offline, Empty, events).value.sessions[st].phase.Closed?
    ensures forall id :: id in Run(online, offline, Empty, events).value.reg ==>
              Run(online, offline, Empty, events).value.reg[id].stream != st
  {
    RunPreservesInv(online, offline, Empty, events);
  }

  /** The two steps of one `SendCmd` call, the look-up and then the write. */
  function SendCmdSteps(c: CallId, id: string, api: string, data: Bytes): seq<Event> {
    [Lookup(c, id, api, data), Write(c)]
  }

  /**
   * A `SendCmd` to a registered id whose write follows its look-up with
   * nothing in between appends the command, api and data unchanged, to the
   * end of that session's stream, and touches nothing else.
   */
  lemma SendAppendsToStream(online: OnlineHook, offline: HookName, w: World,
                            c: CallId, id: string, api: string, data: Bytes)
    requires Inv(w) && id in w.reg && c !in w.pending
    ensures var st := w.reg[id].stream;
            var r := Run(online, offline, w, SendCmdSteps(c, id, api, data));
            st in w.sessions && r.Some? &&
            r.value == w.(sessions := w.sessions[st := w.sessions[st].(sent := w.sessions[st].sent + [Response(api, data)])])
  {
    var w1 := Apply(online, offline, w, Lookup(c, id, api, data));
    assert w1.pending[c] == Delivery(w.reg[id].stream, Response(api, data));
    var w2 := Apply(online, offline, w1, Write(c));
    assert w2.pending == w.pending;
    RunCons(online, offline, w1, Write(c), []);
    RunCons(online, offline, w, Lookup(c, id, api, data), [Write(c)]);
  }

  lemma RunCons(online: OnlineHook, offline: HookName, w: World, e: Event, rest: seq<Event>)
    requires Enabled(w, e)
    ensures Run(online, offline, w, [e] + rest) == Run(online, offline, Apply(online, offline, w, e), rest)
  {
  }

  /** Running two lists of events one after the other is running their concatenation. */
  lemma {:induction false} RunAppend(online: OnlineHook, offline: HookName, w: World, a: seq<Event>, b: seq<Event>)
    ensures Run(online, offline, w, a + b) ==
            if Run(online, offline, w, a).Some? then Run(online, offline, Run(online, offline, w, a).value, b) else None
    decreases |a|
  {
    if a == [] {
      assert a + b == b;
    } else {
      assert (a + b)[0] == a[0] && (a + b)[1..] == a[1..] + b;
      if Enabled(w, a[0]) {
        RunAppend(online, offline, Apply(online, offline, w, a[0]), a[1..], b);
      }
    }
  }

  const Accept: OnlineHook := OnlineHook(DefaultHook, (id: string, data: Payload) => None)

  const Hello: Result<Request> := Ok(Request(RegisterApi, "dup1", NameList([])))

  /** Two connections for one id, both past the duplicate check before either inserts. */
  const RaceEvents: seq<Event> :=
    [Connect(1), Connect(2), First(1, Hello, None), First(2, Hello, None), Insert(1), Insert(2), Online(1), Online(2)]

  function Waiting(st: StreamRef): Session {
    Session(st, Inserting("dup1", NameList([])), [], [])
  }

  function Acknowledged(st: StreamRef): Session {
    Session(st, Active("dup1"), [OkResponse], [OnlineCall(DefaultHook, "dup1", NameList([]))])
  }

  /** Both connections read their envelope and find the id free before either inserts. */
  lemma RaceBothPassCheck()
    ensures Run(Accept, DefaultHook, Empty, RaceEvents[..4]) ==
            Some(Idle(map[], map[1 := Waiting(1), 2 := Waiting(2)]))
  {
    var w0 := Empty;
    var w1 := Apply(Accept, DefaultHook, w0, Connect(1));
    var w2 := Apply(Accept, DefaultHook, w1, Connect(2));
    var w3 := Apply(Accept, DefaultHook, w2, First(1, Hello, None));
    assert w3 == Idle(map[], map[1 := Waiting(1), 2 := NewSession(2)]);
    var w4 := Apply(Accept, DefaultHook, w3, First(2, Hello, None));
    assert w4 == Idle(map[], map[1 := Waiting(1), 2 := Waiting(2)]);
    RunCons(Accept, DefaultHook, w3, First(2, Hello, None), []);
    RunCons(Accept, DefaultHook, w2, First(1, Hello, None), [First(2, Hello, None)]);
    RunCons(Accept, DefaultHook, w1, Connect(2), [First(1, Hello, None), First(2, Hello, None)]);
    RunCons(Accept, DefaultHook, w0, Connect(1), [Connect(2), First(1, Hello, None), First(2, Hello, None)]);
    assert RaceEvents[..4] == [Connect(1)] + [Connect(2), First(1, Hello, None), First(2, Hello, None)];
  }

  /** The race after both inserts: the registry holds the second session's handle. */
  const BothActivating: World :=
    Idle(map["dup1" := Handle(2)],
          map[1 := Session(1, Activating("dup1", NameList([])), [], []),
              2 := Session(2, Activating("dup1", NameList([])), [], [])])

  /** Then both insert; the second insert overwrites the first session's handle. */
  lemma RaceBothInsert()
    ensures Run(Accept, DefaultHook, Idle(map[], map[1 := Waiting(1), 2 := Waiting(2)]), [Insert(1), Insert(2)]) ==
            Some(BothActivating)
  {
    var data := NameList([]);
    var w4 := Idle(map[], map[1 := Waiting(1), 2 := Waiting(2)]);
    var w5 := Apply(Accept, DefaultHook, w4, Insert(1));
    assert w5 == Idle(map["dup1" := Handle(1)], map[1 := Session(1, Activating("dup1", data), [], []), 2 := Waiting(2)]);
    var w6 := Apply(Accept, DefaultHook, w5, Insert(2));
    assert w6 == BothActivating;
    RunCons(Accept, DefaultHook, w5, Insert(2), []);
    RunCons(Accept, DefaultHook, w4, Insert(1), [Insert(2)]);
  }

  /** Then both have the online hook called and are acknowledged with `/ok`. */
  lemma RaceBothAcknowledged()
    ensures Run(Accept, DefaultHook, BothActivating, [Online(1), Online(2)]) ==
            Some(Idle(map["dup1" := Handle(2)], map[1 := Acknowledged(1), 2 := Acknowledged(2)]))
  {
    var data := NameList([]);
    var w6 := BothActivating;
    assert Accept.verdict("dup1", data) == None;
    assert CallOnline(Accept, w6.sessions[1]) == Acknowledged(1);
    var w7 := Apply(Accept, DefaultHook, w6, Online(1));
    assert w7 == Idle(map["dup1" := Handle(2)], map[1 := Acknowledged(1), 2 := Session(2, Activating("dup1", data), [], [])]);
    assert CallOnline(Accept, w7.sessions[2]) == Acknowledged(2);
    var w8 := Apply(Accept, DefaultHook, w7, Online(2));
    assert w8 == Idle(map["dup1" := Handle(2)], map[1 := Acknowledged(1), 2 := Acknowledged(2)]);
    RunCons(Accept, DefaultHook, w7, Online(2), []);
    RunCons(Accept, DefaultHook, w6, Online(1), [Online(2)]);
  }

  /** Both insert, and both have the online hook called and are acknowledged. */
  lemma RaceBothGoOnline()
    ensures Run(Accept, DefaultHook, Idle(map[], map[1 := Waiting(1), 2 := Waiting(2)]), RaceEvents[4..]) ==
            Some(Idle(map["dup1" := Handle(2)], map[1 := Acknowledged(1), 2 := Acknowledged(2)]))
  {
    RaceBothInsert();
    RaceBothAcknowledged();
    RunAppend(Accept, DefaultHook, Idle(map[], map[1 := Waiting(1), 2 := Waiting(2)]),
              [Insert(1), Insert(2)], [Online(1), Online(2)]);
    assert RaceEvents[4..] == [Insert(1), Insert(2)] + [Online(1), Online(2)];
  }

  /**
   * Two connections registering the same id from an empty registry: both
   * read their envelope and pass the duplicate check before either
   * inserts, so both insert, both have the online hook called and both
   * are acknowledged with `/ok`.
   */
  lemma RaceAdmitsTwoOnline()
    ensures var ws := Run(Accept, DefaultHook, Empty, RaceEvents);
            ws.Some? && 1 in ws.value.sessions && 2 in ws.value.sessions &&
            ws.value.sessions[1].phase == Active("dup1") && ws.value.sessions[2].phase == Active("dup1") &&
            ws.value.sessions[1].sent == [OkResponse] && ws.value.sessions[2].sent == [OkResponse] &&
            ws.value.sessions[1].calls == [OnlineCall(DefaultHook, "dup1", NameList([]))] &&
            ws.value.sessions[2].calls == [OnlineCall(DefaultHook, "dup1", NameList([]))]
  {
    RaceBothPassCheck();
    RaceBothGoOnline();
    RunAppend(Accept, DefaultHook, Empty, RaceEvents[..4], RaceEvents[4..]);
    assert RaceEvents[..4] + RaceEvents[4..] == RaceEvents;
  }

  /**
   * Continuing the race: when the second session terminates it removes
   * the id, and the first, still active and still believed online, can no
   * longer be reached by `SendCmd`.
   */
  lemma RaceLeavesActiveSessionUnreachable(api: string, data: Bytes)
    ensures var ws := Run(Accept, DefaultHook, Empty, RaceEvents + [Terminate(2), Remove(2)]);
            ws.Some? && 1 in ws.value.sessions && ws.value.sessions[1].phase == Active("dup1") &&
            Route(ws.value.reg, "dup1", api, data).None?
  {
    RaceAdmitsTwoOnline();
    RunAppend(Accept, DefaultHook, Empty, RaceEvents, [Terminate(2), Remove(2)]);
    var w8 := Run(Accept, DefaultHook, Empty, RaceEvents).value;
    var w9 := Apply(Accept, DefaultHook, w8, Terminate(2));
    RunCons(Accept, DefaultHook, w8, Terminate(2), [Remove(2)]);
    RunCons(Accept, DefaultHook, w9, Remove(2), []);
  }

  /** One connection registers "dup1" and is acknowledged. */
  const OneOnline: seq<Event> := [Connect(1), First(1, Hello, None), Insert(1), Online(1)]

  lemma OneOnlineAcknowledged()
    ensures Run(Accept, DefaultHook, Empty, OneOnline) == Some(Idle(map["dup1" := Handle(1)], map[1 := Acknowledged(1)]))
  {
    var w0 := Empty;
    var w1 := Apply(Accept, DefaultHook, w0, Connect(1));
    assert w1 == Idle(map[], map[1 := NewSession(1)]);
    var w2 := Apply(Accept, DefaultHook, w1, First(1, Hello, None));
    assert w2 == Idle(map[], map[1 := Waiting(1)]);
    var w3 := Apply(Accept, DefaultHook, w2, Insert(1));
    assert w3 == Idle(map["dup1" := Handle(1)], map[1 := Session(1, Activating("dup1", NameList([])), [], [])]);
    assert Accept.verdict("dup1", NameList([])) == None;
    assert CallOnline(Accept, w3.sessions[1]) == Acknowledged(1);
    assert Apply(Accept, DefaultHook, w3, Online(1)) == Idle(map["dup1" := Handle(1)], map[1 := Acknowledged(1)]);
    RunCons(Accept, DefaultHook, w3, Online(1), []);
    RunCons(Accept, DefaultHook, w2, Insert(1), [Online(1)]);
    RunCons(Accept, DefaultHook, w1, First(1, Hello, None), [Insert(1), Online(1)]);
    RunCons(Accept, DefaultHook, w0, Connect(1), OneOnline[1..]);
  }

  /**
   * A `SendCmd` looks up the acknowledged connection, which then ends,
   * calls the offline hook and deletes its entry before the command is
   * written: the write lands on the stream of a `Push` that has returned.
   */
  lemma WriteAfterReturn(api: string, data: Bytes)
    ensures var r := Run(Accept, DefaultHook, Empty, OneOnline + [Lookup(0, "dup1", api, data), Terminate(1), Remove(1), Write(0)]);
            r.Some? && r.value.reg == map[] && 1 in r.value.sessions &&
            r.value.sessions[1].phase == Closed(None) &&
            r.value.sessions[1].sent == [OkResponse, Response(api, data)]
  {
    OneOnlineAcknowledged();
    var w4 := Idle(map["dup1" := Handle(1)], map[1 := Acknowledged(1)]);
    var w5 := Apply(Accept, DefaultHook, w4, Lookup(0, "dup1", api, data));
    assert w5.pending == map[0 := Delivery(1, Response(api, data))];
    var w6 := Apply(Accept, DefaultHook, w5, Terminate(1));
    assert w6.sessions[1].phase == Closing("dup1", None) && w6.sessions[1].sent == [OkResponse];
    var w7 := Apply(Accept, DefaultHook, w6, Remove(1));
    assert w7.reg == map[];
    assert w7.sessions[1].phase == Closed(None) && w7.sessions[1].sent == [OkResponse];
    var w8 := Apply(Accept, DefaultHook, w7, Write(0));
    assert w8.sessions[1].sent == [OkResponse] + [Response(api, data)];
    RunCons(Accept, DefaultHook, w7, Write(0), []);
    RunCons(Accept, DefaultHook, w6, Remove(1), [Write(0)]);
    RunCons(Accept, DefaultHook, w5, Terminate(1), [Remove(1), Write(0)]);
    RunCons(Accept, DefaultHook, w4, Lookup(0, "dup1", api, data), [Terminate(1), Remove(1), Write(0)]);
    RunAppend(Accept, DefaultHook, Empty, OneOnline, [Lookup(0, "dup1", api, data), Terminate(1), Remove(1), Write(0)]);
  }
}
