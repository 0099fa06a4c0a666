/** Properties of the server's peer table: the invariant every handler
    keeps, the exact content of the `getProducers` reply, and facts about
    whole runs of messages. */
module ServerProps {
  import opened Types
  import opened Server

  /** A well-formed record: its engine ids are distinct and already handed
      out, every producer sits on the first transport and every consumer on
      the second. */
  ghost predicate PeerValid(p: Peer, next: ObjId) {
    && NoDup(Ids(p))
    && (forall x :: x in Ids(p) ==> x < next)
    && (forall q :: q in p.producers ==> |p.transports| > 0 && q.transport == p.transports[0])
    && (forall c :: c in p.consumers ==> |p.transports| > 1 && c.transport == p.transports[1])
  }

  /** The table invariant: records only for connected sockets, the key order
      lists each key once, and no engine object is held by two records. */
  ghost predicate Valid(st: State) {
    && st.peers.Keys <= st.sockets
    && NoDup(st.order)
    && (forall o :: o in st.order <==> o in st.peers)
    && (forall o :: o in st.peers ==> PeerValid(st.peers[o], st.nextId))
    && (forall a, b :: a in st.peers && b in st.peers && a != b ==>
          forall x :: x in Ids(st.peers[a]) ==> x !in Ids(st.peers[b]))
  }

  lemma ProducerIdsAppend(ps: seq<Producer>, q: Producer)
    ensures ProducerIds(ps + [q]) == ProducerIds(ps) + [q.id]
  {
    assert |ProducerIds(ps + [q])| == |ProducerIds(ps) + [q.id]|;
    forall i | 0 <= i < |ps| + 1
      ensures ProducerIds(ps + [q])[i] == (ProducerIds(ps) + [q.id])[i]
    {
      assert (ps + [q])[i] == if i < |ps| then ps[i] else q;
    }
  }

  lemma ConsumerIdsAppend(cs: seq<Consumer>, c: Consumer)
    ensures ConsumerIds(cs + [c]) == ConsumerIds(cs) + [c.id]
  {
    assert |ConsumerIds(cs + [c])| == |ConsumerIds(cs) + [c.id]|;
    forall i | 0 <= i < |cs| + 1
      ensures ConsumerIds(cs + [c])[i] == (ConsumerIds(cs) + [c.id])[i]
    {
      assert (cs + [c])[i] == if i < |cs| then cs[i] else c;
    }
  }

  /** A producer's id is among its record's ids. */
  lemma ProducerIdInIds(p: Peer, q: Producer)
    requires q in p.producers
    ensures q.id in Ids(p)
  {
    var i :| 0 <= i < |p.producers| && p.producers[i] == q;
    assert ProducerIds(p.producers)[i] == q.id;
  }

  /** Appending a freshly allocated transport keeps a record well formed and
      adds exactly that id. */
  lemma AddTransport(p: Peer, next: ObjId)
    requires PeerValid(p, next)
    ensures var p' := p.(transports := p.transports + [next]);
            && PeerValid(p', next + 1)
            && forall x :: x in Ids(p') <==> x in Ids(p) || x == next
  {
    var p' := p.(transports := p.transports + [next]);
    var rest := ProducerIds(p.producers) + ConsumerIds(p.consumers);
    assert Ids(p) == p.transports + rest;
    assert Ids(p') == p.transports + [next] + rest;
    assert next !in Ids(p);
    NoDupInsert(p.transports, next, rest);
    forall x | x in Ids(p')
      ensures x < next + 1
    {
      if x != next {
        assert x in p.transports || x in rest;
        assert x in Ids(p);
      }
    }
    forall q | q in p'.producers
      ensures |p'.transports| > 0 && q.transport == p'.transports[0]
    {
      assert p'.transports[0] == p.transports[0];
    }
    forall c | c in p'.consumers
      ensures |p'.transports| > 1 && c.transport == p'.transports[1]
    {
      assert p'.transports[1] == p.transports[1];
    }
  }

  /** Appending a freshly allocated producer on the first transport keeps a
      record well formed and adds exactly that id. */
  lemma AddProducer(p: Peer, q: Producer, next: ObjId)
    requires PeerValid(p, next)
    requires q.id == next && |p.transports| > 0 && q.transport == p.transports[0]
    ensures var p' := p.(producers := p.producers + [q]);
            && PeerValid(p', next + 1)
            && forall x :: x in Ids(p') <==> x in Ids(p) || x == next
  {
    var p' := p.(producers := p.producers + [q]);
    ProducerIdsAppend(p.producers, q);
    var front := p.transports + ProducerIds(p.producers);
    assert Ids(p) == front + ConsumerIds(p.consumers);
    assert Ids(p') == front + [next] + ConsumerIds(p.consumers);
    assert next !in Ids(p);
    NoDupInsert(front, next, ConsumerIds(p.consumers));
    forall x | x in Ids(p')
      ensures x < next + 1
    {
      if x != next {
        assert x in front || x in ConsumerIds(p.consumers);
        assert x in Ids(p);
      }
    }
    forall x | x in Ids(p)
      ensures x in Ids(p')
    {
      assert x in front || x in ConsumerIds(p.consumers);
    }
    forall r | r in p'.producers
      ensures |p'.transports| > 0 && r.transport == p'.transports[0]
    {
      if r != q {
        assert r in p.producers;
      }
    }
  }

  /** Appending a freshly allocated consumer on the second transport keeps a
      record well formed and adds exactly that id. */
  lemma AddConsumer(p: Peer, c: Consumer, next: ObjId)
    requires PeerValid(p, next)
    requires c.id == next && |p.transports| > 1 && c.transport == p.transports[1]
    ensures var p' := p.(consumers := p.consumers + [c]);
            && PeerValid(p', next + 1)
            && forall x :: x in Ids(p') <==> x in Ids(p) || x == next
  {
    var p' := p.(consumers := p.consumers + [c]);
    ConsumerIdsAppend(p.consumers, c);
    assert Ids(p') == Ids(p) + [next] + [];
    NoDupInsert(Ids(p), next, []);
  }

  /** Raising the id allocator keeps every record well formed. */
  lemma PeerValidMonotone(p: Peer, next: ObjId, next': ObjId)
    requires PeerValid(p, next) && next <= next'
    ensures PeerValid(p, next')
  {
  }

  /** Replacing the record of `s` by one whose ids are the old ones plus the
      freshly allocated `st.nextId` keeps the table invariant. */
  lemma GrowRecord(st: State, s: SocketId, p': Peer)
    requires Valid(st) && s in st.peers
    requires PeerValid(p', st.nextId + 1)
    requires forall x :: x in Ids(p') <==> x in Ids(st.peers[s]) || x == st.nextId
    ensures Valid(st.(peers := st.peers[s := p'], nextId := st.nextId + 1))
  {
    var st' := st.(peers := st.peers[s := p'], nextId := st.nextId + 1);
    assert st'.peers.Keys == st.peers.Keys && st'.order == st.order && st'.sockets == st.sockets;
    assert st'.peers.Keys <= st'.sockets && NoDup(st'.order);
    assert forall o :: o in st'.order <==> o in st'.peers;
    forall o | o in st'.peers
      ensures PeerValid(st'.peers[o], st'.nextId)
    {
      if o != s {
        PeerValidMonotone(st.peers[o], st.nextId, st'.nextId);
      }
    }
    forall o | o in st.peers
      ensures forall x :: x in Ids(st.peers[o]) ==> x < st.nextId
    {
      assert PeerValid(st.peers[o], st.nextId);
    }
    GrowDisjoint(st.peers, s, p', st.nextId);
  }

  /** Replacing one record by one that holds a fresh id besides its own
      keeps the records' ids disjoint. */
  lemma GrowDisjoint(peers: map<SocketId, Peer>, s: SocketId, p': Peer, next: ObjId)
    requires s in peers
    requires forall a, b :: a in peers && b in peers && a != b ==>
               forall x :: x in Ids(peers[a]) ==> x !in Ids(peers[b])
    requires forall o :: o in peers ==> forall x :: x in Ids(peers[o]) ==> x < next
    requires forall x :: x in Ids(p') <==> x in Ids(peers[s]) || x == next
    ensures var peers' := peers[s := p'];
            forall a, b :: a in peers' && b in peers' && a != b ==>
              forall x :: x in Ids(peers'[a]) ==> x !in Ids(peers'[b])
  {
    var peers' := peers[s := p'];
    forall a, b, x | a in peers' && b in peers' && a != b && x in Ids(peers'[a])
      ensures x !in Ids(peers'[b])
    {
      if a != s && b != s {
        assert peers'[a] == peers[a] && peers'[b] == peers[b];
      }
    }
  }

  lemma ConnectionKeepsValid(st: State, s: SocketId, roomId: Option<string>)
    requires Valid(st)
    ensures Valid(OnConnection(st, s, roomId).state)
  {
    var st' := OnConnection(st, s, roomId).state;
    var empty := Peer([], [], [], roomId);
    assert st'.peers == st.peers[s := empty];
    assert Ids(empty) == [];
    if s !in st.peers {
      assert s !in st.order;
      NoDupInsert(st.order, s, []);
      assert st.order + [s] + [] == st.order + [s];
    }
    assert NoDup(st'.order);
    assert forall o :: o in st'.order <==> o in st'.peers;
    forall o | o in st'.peers
      ensures PeerValid(st'.peers[o], st'.nextId)
    {
      if o != s {
        assert st'.peers[o] == st.peers[o];
      }
    }
    forall a, b | a in st'.peers && b in st'.peers && a != b
      ensures forall x :: x in Ids(st'.peers[a]) ==> x !in Ids(st'.peers[b])
    {
      if a != s && b != s {
        assert st'.peers[a] == st.peers[a] && st'.peers[b] == st.peers[b];
      }
    }
  }

  lemma RemovePeerKeepsValid(st: State, s: SocketId)
    requires Valid(st)
    ensures Valid(RemovePeer(st, s).state)
    ensures Valid(RemovePeer(st, s).state.(sockets := st.sockets - {s}))
  {
  }

  lemma CreateTransportKeepsValid(st: State, s: SocketId, direction: string, e: Engine)
    requires Valid(st)
    ensures Valid(OnCreateWebRtcTransport(st, s, direction, e).state)
  {
    if e.ok {
      if s in st.peers {
        var p := st.peers[s];
        var p' := p.(transports := p.transports + [st.nextId]);
        assert OnCreateWebRtcTransport(st, s, direction, e).state == st.(peers := st.peers[s := p'], nextId := st.nextId + 1);
        AddTransport(p, st.nextId);
        GrowRecord(st, s, p');
      } else {
        var st' := st.(nextId := st.nextId + 1);
        assert OnCreateWebRtcTransport(st, s, direction, e).state == st';
        forall o | o in st'.peers
          ensures PeerValid(st'.peers[o], st'.nextId)
        {
          PeerValidMonotone(st.peers[o], st.nextId, st'.nextId);
        }
      }
    }
  }

  lemma ProduceKeepsValid(st: State, s: SocketId, kind: Kind, e: Engine)
    requires Valid(st)
    ensures Valid(OnProduce(st, s, kind, e).state)
  {
    if s in st.peers && |st.peers[s].transports| > 0 && e.ok {
      var p := st.peers[s];
      var q := Producer(st.nextId, kind, p.transports[0]);
      var p' := p.(producers := p.producers + [q]);
      assert OnProduce(st, s, kind, e).state == st.(peers := st.peers[s := p'], nextId := st.nextId + 1);
      AddProducer(p, q, st.nextId);
      GrowRecord(st, s, p');
    }
  }

  lemma ConsumeKeepsValid(st: State, s: SocketId, pid: ObjId, e: Engine)
    requires Valid(st)
    ensures Valid(OnConsume(st, s, pid, e).state)
  {
    if CanConsume(st, pid, e) && s in st.peers && |st.peers[s].transports| > 1 && e.ok {
      var p := st.peers[s];
      var kind := FindProducer(st.peers, st.order, pid).value.kind;
      var c := Consumer(st.nextId, pid, kind, p.transports[1]);
      var p' := p.(consumers := p.consumers + [c]);
      assert OnConsume(st, s, pid, e).state == st.(peers := st.peers[s := p'], nextId := st.nextId + 1);
      AddConsumer(p, c, st.nextId);
      GrowRecord(st, s, p');
    }
  }

  /** Every handler keeps the table invariant. */
  lemma StepKeepsValid(st: State, s: SocketId, req: Request, e: Engine)
    requires Valid(st)
    ensures Valid(Step(st, s, req, e).state)
  {
    match req
    case Connection(roomId) => ConnectionKeepsValid(st, s, roomId);
    case Disconnect => RemovePeerKeepsValid(st, s);
    case ExitRoom => RemovePeerKeepsValid(st, s);
    case GetRouterRtpCapabilities =>
    case CreateWebRtcTransport(direction) => CreateTransportKeepsValid(st, s, direction, e);
    case ConnectTransport(_) =>
    case Produce(_, kind) => ProduceKeepsValid(st, s, kind, e);
    case GetProducers =>
    case Consume(pid) => ConsumeKeepsValid(st, s, pid, e);
    case Unhandled(_) =>
  }

  /** The empty server, before any connection, meets the table invariant. */
  lemma InitialValid()
    ensures Valid(Initial)
  {
  }

  /** Every run of messages from the empty server keeps the invariant. */
  lemma {:induction false} RunKeepsValid(st: State, evs: seq<Event>)
    requires Valid(st)
    ensures Valid(Run(st, evs).state)
    decreases |evs|
  {
    if evs != [] {
      StepKeepsValid(st, evs[0].socket, evs[0].req, evs[0].engine);
      RunKeepsValid(Step(st, evs[0].socket, evs[0].req, evs[0].engine).state, evs[1..]);
    }
  }

  /** `getProducers` replies to the caller alone with exactly the producers
      of every other record, in every room, and with none of the caller's
      own producers. */
  lemma GetProducersReply(st: State, s: SocketId, e: Engine)
    requires Valid(st)
    ensures var r := Step(st, s, GetProducers, e);
            && r.state == st
            && |r.emits| == 1 && r.emits[0].to == {s} && r.emits[0].msg.Producers?
            && (forall info :: info in r.emits[0].msg.list <==>
                  exists o :: o in st.peers && o != s && info in Infos(st.peers[o].producers))
            && (s in st.peers ==> forall info, q :: info in r.emits[0].msg.list && q in st.peers[s].producers ==>
                  info.producerId != q.id)
  {
    var list := OtherProducers(st.peers, st.order, s);
    if s in st.peers {
      forall info, q | info in list && q in st.peers[s].producers
        ensures info.producerId != q.id
      {
        var o :| o in st.order && o != s && o in st.peers && info in Infos(st.peers[o].producers);
        var i :| 0 <= i < |st.peers[o].producers| && Infos(st.peers[o].producers)[i] == info;
        ProducerIdInIds(st.peers[o], st.peers[o].producers[i]);
        ProducerIdInIds(st.peers[s], q);
      }
    }
  }

  /** The number of `peer-disconnected` notices about `s` among `emits`. */
  function Notices(emits: seq<Emit>, s: SocketId): nat
    decreases |emits|
  {
    if emits == [] then 0
    else (if emits[0].msg == PeerDisconnected(s) then 1 else 0) + Notices(emits[1..], s)
  }

  /** The number of connections of socket `s` among `evs`. */
  function Connections(evs: seq<Event>, s: SocketId): nat
    decreases |evs|
  {
    if evs == [] then 0
    else (if evs[0].socket == s && evs[0].req.Connection? then 1 else 0) + Connections(evs[1..], s)
  }

  lemma {:induction false} NoticesAppend(a: seq<Emit>, b: seq<Emit>, s: SocketId)
    ensures Notices(a + b, s) == Notices(a, s) + Notices(b, s)
    decreases |a|
  {
    if a == [] {
      assert a + b == b;
    } else {
      assert (a + b)[0] == a[0];
      assert (a + b)[1..] == a[1..] + b;
      NoticesAppend(a[1..], b, s);
      calc {
        Notices(a + b, s);
        (if a[0].msg == PeerDisconnected(s) then 1 else 0) + Notices(a[1..] + b, s);
        (if a[0].msg == PeerDisconnected(s) then 1 else 0) + Notices(a[1..], s) + Notices(b, s);
      }
    }
  }

  /** What one step does to the record of `s` and to the notices about it:
      only `s`'s own `disconnect` or `exitRoom` removes its record and then
      emits one notice, only its connection installs one. */
  lemma StepNotices(st: State, s0: SocketId, req: Request, e: Engine, s: SocketId)
    ensures var r := Step(st, s0, req, e);
            && Notices(r.emits, s) == (if s == s0 && (req.Disconnect? || req.ExitRoom?) && s in st.peers then 1 else 0)
            && (s in r.state.peers <==>
                  if s == s0 then req.Connection? || (s in st.peers && !req.Disconnect? && !req.ExitRoom?)
                  else s in st.peers)
  {
  }

  /** `disconnect` and `exitRoom` share `removePeer`, so a socket is announced
      as gone at most once per record it had: once for a record present at
      the start and once per later connection. */
  lemma {:induction false} NoticeAtMostOncePerConnection(st: State, evs: seq<Event>, s: SocketId)
    ensures Notices(Run(st, evs).emits, s) <= (if s in st.peers then 1 else 0) + Connections(evs, s)
    decreases |evs|
  {
    if evs != [] {
      var ev := evs[0];
      var r := Step(st, ev.socket, ev.req, ev.engine);
      StepNotices(st, ev.socket, ev.req, ev.engine, s);
      NoticesAppend(r.emits, Run(r.state, evs[1..]).emits, s);
      NoticeAtMostOncePerConnection(r.state, evs[1..], s);
    }
  }

  /** Id `x` was handed out and no record holds it any more. */
  ghost predicate Retired(st: State, x: ObjId) {
    x < st.nextId && forall o :: o in st.peers ==> x !in Ids(st.peers[o])
  }

  /** Replacing one record by one that holds the freshly allocated id besides
      its own keeps every retired id retired. */
  lemma GrowKeepsRetired(st: State, s: SocketId, p': Peer, x: ObjId)
    requires Retired(st, x) && s in st.peers
    requires forall y :: y in Ids(p') ==> y in Ids(st.peers[s]) || y == st.nextId
    ensures Retired(st.(peers := st.peers[s := p'], nextId := st.nextId + 1), x)
  {
    var st' := st.(peers := st.peers[s := p'], nextId := st.nextId + 1);
    forall o | o in st'.peers
      ensures x !in Ids(st'.peers[o])
    {
      if o != s {
        assert st'.peers[o] == st.peers[o];
      }
    }
  }

  lemma StepKeepsRetired(st: State, s: SocketId, req: Request, e: Engine, x: ObjId)
    requires Retired(st, x)
    ensures Retired(Step(st, s, req, e).state, x)
  {
    match req
    case CreateWebRtcTransport(direction) =>
      if e.ok && s in st.peers {
        var p := st.peers[s];
        var p' := p.(transports := p.transports + [st.nextId]);
        assert Step(st, s, req, e).state == st.(peers := st.peers[s := p'], nextId := st.nextId + 1);
        assert Ids(p') == p.transports + [st.nextId] + (ProducerIds(p.producers) + ConsumerIds(p.consumers));
        GrowKeepsRetired(st, s, p', x);
      }
    case Produce(_, kind) =>
      if s in st.peers && |st.peers[s].transports| > 0 && e.ok {
        var p := st.peers[s];
        var q := Producer(st.nextId, kind, p.transports[0]);
        var p' := p.(producers := p.producers + [q]);
        assert Step(st, s, req, e).state == st.(peers := st.peers[s := p'], nextId := st.nextId + 1);
        ProducerIdsAppend(p.producers, q);
        assert Ids(p') == p.transports + ProducerIds(p.producers) + [q.id] + ConsumerIds(p.consumers);
        GrowKeepsRetired(st, s, p', x);
      }
    case Consume(pid) =>
      if CanConsume(st, pid, e) && s in st.peers && |st.peers[s].transports| > 1 && e.ok {
        var p := st.peers[s];
        var kind := FindProducer(st.peers, st.order, pid).value.kind;
        var c := Consumer(st.nextId, pid, kind, p.transports[1]);
        var p' := p.(consumers := p.consumers + [c]);
        assert Step(st, s, req, e).state == st.(peers := st.peers[s := p'], nextId := st.nextId + 1);
        ConsumerIdsAppend(p.consumers, c);
        assert Ids(p') == Ids(p) + [c.id];
        GrowKeepsRetired(st, s, p', x);
      }
    case _ =>
  }

  lemma {:induction false} RunKeepsRetired(st: State, evs: seq<Event>, x: ObjId)
    requires Retired(st, x)
    ensures Retired(Run(st, evs).state, x)
    decreases |evs|
  {
    if evs != [] {
      StepKeepsRetired(st, evs[0].socket, evs[0].req, evs[0].engine, x);
      RunKeepsRetired(Step(st, evs[0].socket, evs[0].req, evs[0].engine).state, evs[1..], x);
    }
  }

  /** Once a socket's record is removed, no later `getProducers` reply, to
      anybody and after any further messages, lists any of its producers. */
  lemma LeftProducerNeverListed(st: State, s: SocketId, req: Request, e: Engine, q: Producer, evs: seq<Event>, asker: SocketId)
    requires Valid(st) && s in st.peers && q in st.peers[s].producers
    requires req == Disconnect || req == ExitRoom
    ensures var after := Run(Step(st, s, req, e).state, evs).state;
            forall info :: info in OtherProducers(after.peers, after.order, asker) ==> info.producerId != q.id
  {
    ProducerIdInIds(st.peers[s], q);
    var st1 := Step(st, s, req, e).state;
    assert Retired(st1, q.id);
    RunKeepsRetired(st1, evs, q.id);
    var after := Run(st1, evs).state;
    forall info | info in OtherProducers(after.peers, after.order, asker)
      ensures info.producerId != q.id
    {
      var o :| o in after.order && o != asker && o in after.peers && info in Infos(after.peers[o].producers);
      var i :| 0 <= i < |after.peers[o].producers| && Infos(after.peers[o].producers)[i] == info;
      ProducerIdInIds(after.peers[o], after.peers[o].producers[i]);
    }
  }

  /** A `consume` for a producer whose socket has left, sent after any
      further messages, finds nothing for `canConsume` to accept: the
      requester gets no consumer, no event and no error. */
  lemma ConsumeOfLeftProducerIsSilent(st: State, s: SocketId, req: Request, e: Engine, q: Producer,
                                      evs: seq<Event>, asker: SocketId, e2: Engine)
    requires Valid(st) && s in st.peers && q in st.peers[s].producers
    requires req == Disconnect || req == ExitRoom
    ensures var st1 := Run(Step(st, s, req, e).state, evs).state;
            Step(st1, asker, Consume(q.id), e2) == Quiet(st1)
  {
    ProducerIdInIds(st.peers[s], q);
    var st0 := Step(st, s, req, e).state;
    assert Retired(st0, q.id);
    RunKeepsRetired(st0, evs, q.id);
    var st1 := Run(st0, evs).state;
    forall o, r | o in st1.order && o in st1.peers && r in st1.peers[o].producers
      ensures r.id != q.id
    {
      ProducerIdInIds(st1.peers[o], r);
    }
  }

  /** `direction` only names the reply event: two requests with different
      directions change the server identically. */
  lemma DirectionOnlyNamesTheEvent(st: State, s: SocketId, d1: string, d2: string, e: Engine)
    ensures var o1 := Step(st, s, CreateWebRtcTransport(d1), e);
            var o2 := Step(st, s, CreateWebRtcTransport(d2), e);
            && o1.state == o2.state && o1.leaked == o2.leaked && |o1.emits| == |o2.emits|
            && forall i :: 0 <= i < |o1.emits| ==>
                 o1.emits[i].to == o2.emits[i].to && o1.emits[i].msg.id == o2.emits[i].msg.id
                 && o1.emits[i].msg.TransportCreated? && o1.emits[i].msg.send == (d1 == "send")
  {
  }

  /** `produce` ignores the transport id it is sent. */
  lemma ProduceIgnoresTransportId(st: State, s: SocketId, t1: ObjId, t2: ObjId, kind: Kind, e: Engine)
    ensures Step(st, s, Produce(t1, kind), e) == Step(st, s, Produce(t2, kind), e)
  {
  }

  /** `connectTransport` has no already-connected guard: repeating it for one
      of the caller's transports calls `connect` again. */
  lemma ConnectTransportRepeats(st: State, s: SocketId, t: ObjId, e1: Engine, e2: Engine)
    requires s in st.peers && t in st.peers[s].transports
    ensures var o1 := Step(st, s, ConnectTransport(t), e1);
            var o2 := Step(o1.state, s, ConnectTransport(t), e2);
            o1.connects == [t] && o2.connects == [t] && o2.state == st
  {
  }

  /** After `exitRoom` the socket stays connected and may still ask for a
      transport: the engine creates it, the push into the missing record
      throws, and the transport is held by nobody and closed by nobody, then
      or after any further messages. */
  lemma TransportAfterExitIsLeaked(st: State, s: SocketId, e1: Engine, direction: string, e2: Engine, evs: seq<Event>)
    requires Valid(st) && e2.ok
    ensures var st1 := Step(st, s, ExitRoom, e1).state;
            var o := Step(st1, s, CreateWebRtcTransport(direction), e2);
            && o.leaked == [st1.nextId] && o.closed == [] && o.emits == []
            && Retired(Run(o.state, evs).state, st1.nextId)
  {
    var st1 := Step(st, s, ExitRoom, e1).state;
    var o := Step(st1, s, CreateWebRtcTransport(direction), e2);
    RunKeepsRetired(o.state, evs, st1.nextId);
  }
}
