/** The signaling server of the SFU: the table of peer records kept per
    socket.io connection, and one transition per socket message. Every handler
    is one atomic step; media-engine objects are opaque ids drawn from a
    counter, and whether an engine call succeeds is a parameter of the step. */
module Server {
  import opened Types

  /** A producer as the server keeps it: its engine id, its media kind and the
      transport it was created on. */
  datatype Producer = Producer(id: ObjId, kind: Kind, transport: ObjId)

  /** A consumer of `producerId`, created on `transport`. */
  datatype Consumer = Consumer(id: ObjId, producerId: ObjId, kind: Kind, transport: ObjId)

  /** One `peers[socket.id]` record. `roomId` is stored and never read. */
  datatype Peer = Peer(transports: seq<ObjId>, producers: seq<Producer>, consumers: seq<Consumer>, roomId: Option<string>)

  /** `sockets`: the connected sockets, which are the recipients of a broadcast;
      `peers`: the record table; `order`: the key insertion order of that table,
      which is the order a `for ... in` loop visits it; `nextId`: the next id
      the media engine hands out. */
  datatype State = State(sockets: set<SocketId>, peers: map<SocketId, Peer>, order: seq<SocketId>, nextId: ObjId)

  /** Server-to-client events. `TransportCreated(true, _)` is the event named
      `webRtcTransportCreated-send`, `TransportCreated(false, _)` the one named
      `webRtcTransportCreated-recv`. */
  datatype Msg =
    | RouterRtpCapabilities
    | TransportCreated(send: bool, id: ObjId)
    | NewProducer(producerId: ObjId, kind: Kind)
    | Producers(list: seq<ProducerInfo>)
    | ConsumerCreated(id: ObjId, producerId: ObjId, kind: Kind)
    | PeerDisconnected(socketId: SocketId)

  /** One emit: the set of sockets it reaches and the event. */
  datatype Emit = Emit(to: set<SocketId>, msg: Msg)

  /** The value a handler passes to the client's acknowledgement callback. */
  datatype Ack = Produced(id: ObjId)

  /** Client-to-server socket messages, plus the connection itself.
      `Unhandled` is an event name the server registers no listener for. */
  datatype Request =
    | Connection(roomId: Option<string>)
    | Disconnect
    | ExitRoom
    | GetRouterRtpCapabilities
    | CreateWebRtcTransport(direction: string)
    | ConnectTransport(transportId: ObjId)
    | Produce(transportId: ObjId, kind: Kind)
    | GetProducers
    | Consume(producerId: ObjId)
    | Unhandled(event: string)

  /** The media engine's verdicts for one step: `ok` says whether the engine
      call that creates an object succeeds; `capsOk` says whether the
      requester's RTP capabilities can receive the producer's codec. */
  datatype Engine = Engine(ok: bool, capsOk: bool)

  /** The result of one step: the new state, the emits in order, the
      acknowledgement (if the handler calls its callback), the engine objects
      closed, the transports on which `connect` was called, and the engine
      objects created but neither recorded nor closed. */
  datatype Outcome = Outcome(state: State, emits: seq<Emit>, ack: Option<Ack>, closed: seq<ObjId>, connects: seq<ObjId>, leaked: seq<ObjId>)

  /** The server before any connection. */
  const Initial: State := State({}, map[], [], 0)

  /** A step that changes nothing and emits nothing. */
  function Quiet(st: State): Outcome {
    Outcome(st, [], None, [], [], [])
  }

  function ProducerIds(ps: seq<Producer>): (r: seq<ObjId>)
    ensures |r| == |ps|
    ensures forall i :: 0 <= i < |ps| ==> r[i] == ps[i].id
  {
    seq(|ps|, i requires 0 <= i < |ps| => ps[i].id)
  }

  function ConsumerIds(cs: seq<Consumer>): (r: seq<ObjId>)
    ensures |r| == |cs|
    ensures forall i :: 0 <= i < |cs| ==> r[i] == cs[i].id
  {
    seq(|cs|, i requires 0 <= i < |cs| => cs[i].id)
  }

  function Info(q: Producer): ProducerInfo {
    ProducerInfo(q.id, q.kind)
  }

  function Infos(ps: seq<Producer>): (r: seq<ProducerInfo>)
    ensures |r| == |ps|
    ensures forall i :: 0 <= i < |ps| ==> r[i] == Info(ps[i])
  {
    seq(|ps|, i requires 0 <= i < |ps| => Info(ps[i]))
  }

  /** Every engine object a peer record holds, in the order `removePeer`
      closes them: transports, then producers, then consumers. */
  function Ids(p: Peer): seq<ObjId> {
    p.transports + ProducerIds(p.producers) + ConsumerIds(p.consumers)
  }

  /** `o` has the same record (or the same absence of one) in `a` and `b`. */
  predicate SameRecord(a: State, b: State, o: SocketId) {
    && (o in a.peers <==> o in b.peers)
    && (o in a.peers ==> a.peers[o] == b.peers[o])
  }

  /** `xs` without `s`, the key order after `delete peers[s]`. */
  function Without(xs: seq<SocketId>, s: SocketId): (r: seq<SocketId>)
    ensures forall x :: x in r <==> x in xs && x != s
    ensures NoDup(xs) ==> NoDup(r)
    ensures |r| <= |xs|
  {
    if xs == [] then []
    else if xs[0] == s then Without(xs[1..], s)
    else
      var rest := Without(xs[1..], s);
      assert NoDup(xs) ==> NoDup([xs[0]] + rest) by {
        if NoDup(xs) {
          forall i, j | 0 <= i < j < |xs| - 1
            ensures xs[1..][i] != xs[1..][j]
          {
            assert xs[1..][i] == xs[i + 1] && xs[1..][j] == xs[j + 1];
          }
          assert xs[0] !in xs[1..] by {
            forall k | 0 <= k < |xs| - 1 ensures xs[1..][k] != xs[0] {
              assert xs[1..][k] == xs[k + 1];
            }
          }
          NoDupInsert([], xs[0], rest);
          assert [] + [xs[0]] + rest == [xs[0]] + rest;
        }
      }
      [xs[0]] + rest
  }

  /** The connection handler: a fresh record with no engine objects and the
      handshake's `roomId`. A JavaScript assignment to an existing key keeps
      the key's place in the iteration order; the objects of an overwritten
      record are dropped without being closed. */
  function OnConnection(st: State, s: SocketId, roomId: Option<string>): (r: Outcome)
    ensures s in r.state.sockets && s in r.state.peers
    ensures r.state.peers[s] == Peer([], [], [], roomId)
    ensures forall o :: o != s ==> SameRecord(st, r.state, o)
    ensures r.state.nextId == st.nextId
    ensures r.state.order == if s in st.peers then st.order else st.order + [s]
    ensures r.leaked == if s in st.peers then Ids(st.peers[s]) else []
    ensures r.emits == [] && r.ack == None && r.closed == [] && r.connects == []
  {
    var order := if s in st.peers then st.order else st.order + [s];
    var dropped := if s in st.peers then Ids(st.peers[s]) else [];
    Outcome(st.(sockets := st.sockets + {s}, peers := st.peers[s := Peer([], [], [], roomId)], order := order),
            [], None, [], [], dropped)
  }

  /** `removePeer`, shared by `disconnect` and `exitRoom`: without a record it
      does nothing; otherwise it closes every object of the record, deletes
      the record and tells every other connected socket. */
  function RemovePeer(st: State, s: SocketId): (r: Outcome)
    ensures s !in st.peers ==> r == Quiet(st)
    ensures s !in r.state.peers
    ensures forall o :: o != s ==> SameRecord(st, r.state, o)
    ensures r.state.sockets == st.sockets && r.state.nextId == st.nextId
    ensures s in st.peers ==> r.emits == [Emit(st.sockets - {s}, PeerDisconnected(s))]
    ensures s in st.peers ==>
              && (forall t :: t in st.peers[s].transports ==> t in r.closed)
              && (forall q :: q in st.peers[s].producers ==> q.id in r.closed)
              && (forall c :: c in st.peers[s].consumers ==> c.id in r.closed)
    ensures forall x :: x in r.closed ==> s in st.peers && x in Ids(st.peers[s])
    ensures r.ack == None && r.connects == [] && r.leaked == []
  {
    if s !in st.peers then Quiet(st)
    else
      var p := st.peers[s];
      assert forall q :: q in p.producers ==> q.id in ProducerIds(p.producers) by {
        forall q | q in p.producers ensures q.id in ProducerIds(p.producers) {
          var i :| 0 <= i < |p.producers| && p.producers[i] == q;
          assert ProducerIds(p.producers)[i] == q.id;
        }
      }
      assert forall c :: c in p.consumers ==> c.id in ConsumerIds(p.consumers) by {
        forall c | c in p.consumers ensures c.id in ConsumerIds(p.consumers) {
          var i :| 0 <= i < |p.consumers| && p.consumers[i] == c;
          assert ConsumerIds(p.consumers)[i] == c.id;
        }
      }
      Outcome(st.(peers := st.peers - {s}, order := Without(st.order, s)),
              [Emit(st.sockets - {s}, PeerDisconnected(s))], None, Ids(p), [], [])
  }

  /** `createWebRtcTransport`: the engine creates a transport; it is appended
      to the caller's list and announced to the caller under an event name
      chosen by `direction` alone. When the caller has no record (after
      `exitRoom`), the push throws, the error is caught and the transport is
      left open. */
  function OnCreateWebRtcTransport(st: State, s: SocketId, direction: string, e: Engine): (r: Outcome)
    ensures !e.ok ==> r == Quiet(st)
    ensures e.ok ==> r.state.nextId == st.nextId + 1
    ensures e.ok && s in st.peers ==>
              && s in r.state.peers
              && r.state.peers[s] == st.peers[s].(transports := st.peers[s].transports + [st.nextId])
              && r.emits == [Emit({s}, TransportCreated(direction == "send", st.nextId))]
              && r.leaked == []
    ensures e.ok && s !in st.peers ==> r.state.peers == st.peers && r.emits == [] && r.leaked == [st.nextId]
    ensures forall o :: o != s ==> SameRecord(st, r.state, o)
    ensures r.state.sockets == st.sockets && r.state.order == st.order
    ensures r.ack == None && r.closed == [] && r.connects == []
  {
    if !e.ok then Quiet(st)
    else
      var id := st.nextId;
      var st1 := st.(nextId := id + 1);
      if s !in st.peers then Outcome(st1, [], None, [], [], [id])
      else
        var p := st.peers[s];
        Outcome(st1.(peers := st.peers[s := p.(transports := p.transports + [id])]),
                [Emit({s}, TransportCreated(direction == "send", id))], None, [], [], [])
  }

  /** `connectTransport`: looks the id up in the caller's own transports and
      connects it, with no check that it is already connected. */
  function OnConnectTransport(st: State, s: SocketId, transportId: ObjId): (r: Outcome)
    ensures r.state == st && r.emits == [] && r.ack == None && r.closed == [] && r.leaked == []
    ensures r.connects == [] || r.connects == [transportId]
    ensures r.connects == [transportId] <==> s in st.peers && transportId in st.peers[s].transports
  {
    if s !in st.peers then Quiet(st)
    else if transportId !in st.peers[s].transports then Quiet(st)
    else Quiet(st).(connects := [transportId])
  }

  /** `produce`: the producer is always created on the caller's first
      transport, whatever `transportId` the message names; it is announced to
      every other connected socket and acknowledged with its id. Without a
      record, without a first transport or when the engine fails, the handler
      throws before changing anything. */
  function OnProduce(st: State, s: SocketId, kind: Kind, e: Engine): (r: Outcome)
    ensures r.closed == [] && r.connects == [] && r.leaked == []
    ensures forall o :: o != s ==> SameRecord(st, r.state, o)
    ensures r.state.sockets == st.sockets && r.state.order == st.order
    ensures !(s in st.peers && |st.peers[s].transports| > 0 && e.ok) ==> r == Quiet(st)
    ensures s in st.peers && |st.peers[s].transports| > 0 && e.ok ==>
              && s in r.state.peers
              && r.state.nextId == st.nextId + 1
              && r.state.peers[s] == st.peers[s].(producers := st.peers[s].producers
                                                   + [Producer(st.nextId, kind, st.peers[s].transports[0])])
              && r.emits == [Emit(st.sockets - {s}, NewProducer(st.nextId, kind))]
              && r.ack == Some(Produced(st.nextId))
  {
    if s !in st.peers || |st.peers[s].transports| == 0 || !e.ok then Quiet(st)
    else
      var p := st.peers[s];
      var id := st.nextId;
      var q := Producer(id, kind, p.transports[0]);
      Outcome(st.(peers := st.peers[s := p.(producers := p.producers + [q])], nextId := id + 1),
              [Emit(st.sockets - {s}, NewProducer(id, kind))], Some(Produced(id)), [], [], [])
  }

  /** The `getProducers` scan: the producers of every record visited in
      `order` whose key is not `s`, whatever its room. */
  function OtherProducers(peers: map<SocketId, Peer>, order: seq<SocketId>, s: SocketId): (r: seq<ProducerInfo>)
    ensures forall info :: info in r <==>
              exists o :: o in order && o != s && o in peers && info in Infos(peers[o].producers)
  {
    if order == [] then []
    else
      var o := order[0];
      var rest := OtherProducers(peers, order[1..], s);
      var here := if o != s && o in peers then Infos(peers[o].producers) else [];
      assert forall o' :: o' in order <==> o' == o || o' in order[1..] by {
        assert order == [o] + order[1..];
      }
      here + rest
  }

  /** The first producer with id `pid` in the records visited in `order`. */
  function FindProducer(peers: map<SocketId, Peer>, order: seq<SocketId>, pid: ObjId): (r: Option<Producer>)
    ensures r.Some? ==> r.value.id == pid && exists o :: o in order && o in peers && r.value in peers[o].producers
    ensures r.None? ==> forall o, q :: o in order && o in peers && q in peers[o].producers ==> q.id != pid
  {
    if order == [] then None
    else
      var o := order[0];
      var here := if o in peers then FindIn(peers[o].producers, pid) else None;
      if here.Some? then here
      else
        assert forall o' :: o' in order <==> o' == o || o' in order[1..] by {
          assert order == [o] + order[1..];
        }
        FindProducer(peers, order[1..], pid)
  }

  function FindIn(ps: seq<Producer>, pid: ObjId): (r: Option<Producer>)
    ensures r.Some? ==> r.value in ps && r.value.id == pid
    ensures r.None? ==> forall q :: q in ps ==> q.id != pid
  {
    if ps == [] then None
    else if ps[0].id == pid then Some(ps[0])
    else
      assert forall q :: q in ps <==> q == ps[0] || q in ps[1..] by {
        assert ps == [ps[0]] + ps[1..];
      }
      FindIn(ps[1..], pid)
  }

  /** `router.canConsume`: the producer is alive in the router and the
      requester's capabilities can receive it. */
  predicate CanConsume(st: State, pid: ObjId, e: Engine) {
    FindProducer(st.peers, st.order, pid).Some? && e.capsOk
  }

  /** `consume`: when `canConsume` holds, a consumer is created on the
      caller's second transport and described to the caller in a `consumer`
      event; the handler has no acknowledgement callback. Every failure is
      caught and leaves everything as it was. */
  function OnConsume(st: State, s: SocketId, pid: ObjId, e: Engine): (r: Outcome)
    ensures r.ack == None && r.closed == [] && r.connects == [] && r.leaked == []
    ensures forall o :: o != s ==> SameRecord(st, r.state, o)
    ensures r.state.sockets == st.sockets && r.state.order == st.order
    ensures !(CanConsume(st, pid, e) && s in st.peers && |st.peers[s].transports| > 1 && e.ok) ==> r == Quiet(st)
    ensures CanConsume(st, pid, e) && s in st.peers && |st.peers[s].transports| > 1 && e.ok ==>
              var kind := FindProducer(st.peers, st.order, pid).value.kind;
              && s in r.state.peers
              && r.state.nextId == st.nextId + 1
              && r.state.peers[s] == st.peers[s].(consumers := st.peers[s].consumers
                                                   + [Consumer(st.nextId, pid, kind, st.peers[s].transports[1])])
              && r.emits == [Emit({s}, ConsumerCreated(st.nextId, pid, kind))]
  {
    if !CanConsume(st, pid, e) then Quiet(st)
    else if s !in st.peers || |st.peers[s].transports| < 2 || !e.ok then Quiet(st)
    else
      var p := st.peers[s];
      var id := st.nextId;
      var kind := FindProducer(st.peers, st.order, pid).value.kind;
      var c := Consumer(id, pid, kind, p.transports[1]);
      Outcome(st.(peers := st.peers[s := p.(consumers := p.consumers + [c])], nextId := id + 1),
              [Emit({s}, ConsumerCreated(id, pid, kind))], None, [], [], [])
  }

  /** One message from socket `s`, handled to completion. */
  function Step(st: State, s: SocketId, req: Request, e: Engine): Outcome {
    match req
    case Connection(roomId) => OnConnection(st, s, roomId)
    case Disconnect =>
      var r := RemovePeer(st, s);
      r.(state := r.state.(sockets := r.state.sockets - {s}))
    case ExitRoom => RemovePeer(st, s)
    case GetRouterRtpCapabilities => Quiet(st).(emits := [Emit({s}, RouterRtpCapabilities)])
    case CreateWebRtcTransport(direction) => OnCreateWebRtcTransport(st, s, direction, e)
    case ConnectTransport(transportId) => OnConnectTransport(st, s, transportId)
    case Produce(_, kind) => OnProduce(st, s, kind, e)
    case GetProducers => Quiet(st).(emits := [Emit({s}, Producers(OtherProducers(st.peers, st.order, s)))])
    case Consume(pid) => OnConsume(st, s, pid, e)
    case Unhandled(_) => Quiet(st)
  }

  /** One message as it reaches the server: the sending socket, the message
      and the engine's verdicts while it is handled. */
  datatype Event = Event(socket: SocketId, req: Request, engine: Engine)

  /** The final state and every emit of a run of events. */
  datatype Trace = Trace(state: State, emits: seq<Emit>)

  /** Events handled one after another, each to completion. */
  function Run(st: State, evs: seq<Event>): Trace
    decreases |evs|
  {
    if evs == [] then Trace(st, [])
    else
      var o := Step(st, evs[0].socket, evs[0].req, evs[0].engine);
      var t := Run(o.state, evs[1..]);
      Trace(t.state, o.emits + t.emits)
  }
}
