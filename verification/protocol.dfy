/** How the page's messages meet the server's handlers: what the server
    makes of each message the page sends, and the consequences of the
    places where the two sides disagree. */
module Protocol {
  import opened Types
  import Server
  import MediaClient
  import VideoCall

  /** The request the server sees for a message the page sends. The server
      registers no `joinRoom` listener. */
  function ToServer(m: VideoCall.Outgoing): Server.Request {
    match m
    case JoinRoom(_) => Server.Unhandled("joinRoom")
    case GetRouterRtpCapabilities => Server.GetRouterRtpCapabilities
    case CreateWebRtcTransport(direction) => Server.CreateWebRtcTransport(direction)
    case GetProducers => Server.GetProducers
    case Consume(pid) => Server.Consume(pid)
  }

  /** The page opens its socket without a handshake query, so the server
      reads no `roomId`. */
  const PageConnection: Server.Request := Server.Connection(None)

  /** The room the page names reaches the server only in `joinRoom`, which
      the server ignores: the record of the page's socket holds no room, and
      `joinRoom` changes nothing and sends nothing. */
  lemma RoomNeverReachesServer(st: Server.State, s: SocketId, roomId: string, e1: Server.Engine, e2: Server.Engine)
    ensures var st1 := Server.Step(st, s, PageConnection, e1).state;
            var o := Server.Step(st1, s, ToServer(VideoCall.JoinRoom(roomId)), e2);
            && s in o.state.peers && o.state.peers[s].roomId == None
            && o.state == st1 && o.emits == [] && o.ack == None
  {
  }

  /** The page asks for its send transport first and its receive transport
      second; the server numbers a peer's transports in arrival order and
      announces each under the name the request chose, so the page's send
      transport is the server's `transports[0]`, on which every producer is
      created, and its receive transport is `transports[1]`, on which every
      consumer is created. */
  lemma PageTransportsMatchServerIndices(st: Server.State, s: SocketId, e1: Server.Engine, e2: Server.Engine,
                                         kind: Kind, tid: ObjId, e3: Server.Engine)
    requires s in st.peers && st.peers[s].transports == []
    requires e1.ok && e2.ok && e3.ok
    ensures var o1 := Server.Step(st, s, ToServer(VideoCall.CreateWebRtcTransport("send")), e1);
            var o2 := Server.Step(o1.state, s, ToServer(VideoCall.CreateWebRtcTransport("recv")), e2);
            var o3 := Server.Step(o2.state, s, Server.Produce(tid, kind), e3);
            && o1.emits == [Server.Emit({s}, Server.TransportCreated(true, st.nextId))]
            && o2.emits == [Server.Emit({s}, Server.TransportCreated(false, st.nextId + 1))]
            && s in o2.state.peers && o2.state.peers[s].transports == [st.nextId, st.nextId + 1]
            && s in o3.state.peers
            && Server.Producer(st.nextId + 2, kind, st.nextId) in o3.state.peers[s].producers
  {
    var o1 := Server.Step(st, s, ToServer(VideoCall.CreateWebRtcTransport("send")), e1);
    var o2 := Server.Step(o1.state, s, ToServer(VideoCall.CreateWebRtcTransport("recv")), e2);
    assert o2.state.peers[s].transports == [] + [st.nextId] + [st.nextId + 1];
  }

  /** The server's `consume` handler has no acknowledgement callback, so the
      promise of the page's `consumeRemoteMedia` never settles and stores no
      consumer. */
  lemma ConsumeNeverSettles(st: Server.State, s: SocketId, pid: ObjId, e: Server.Engine,
                            c: MediaClient.Client, track: Option<TrackId>)
    requires MediaClient.Loaded(c)
    ensures Server.Step(st, s, ToServer(VideoCall.Consume(pid)), e).ack == None
    ensures var r := MediaClient.ConsumeRemoteMedia(c, pid, None, track);
            r.outcome == MediaClient.Pending && r.client == c && r.sent
  {
  }

  /** Against this server, a non-empty backfill sends one `consume`, waits
      for ever on it and fills in no remote stream. */
  lemma BackfillStallsOnFirstProducer(c: MediaClient.Client, streams: map<ObjId, TrackId>,
                                      list: seq<ProducerInfo>, replies: ObjId -> VideoCall.ConsumeReply)
    requires MediaClient.Loaded(c) && list != []
    requires forall e :: e in list ==> replies(e.producerId).ack.None?
    ensures var r := VideoCall.Backfill(c, streams, list, replies);
            && r.stalled && r.streams == streams && r.client == c
            && r.sent == [VideoCall.Consume(list[0].producerId)]
  {
    assert list[0] in list;
  }

  /** How the page's `sendTransport.produce` settles given the server's
      reply to the `produce` message it relays: the `produce` listener calls
      back only from the server's acknowledgement, so without one the
      promise never settles. */
  function PageProduceReply(ack: Option<Server.Ack>): MediaClient.ProduceReply {
    match ack
    case None => MediaClient.ProduceNeverSettles
    case Some(Produced(id)) => MediaClient.ProducerCreated(id)
  }

  /** When the server fails to create the producer for the page's first
      track, it sends no acknowledgement, so `produceLocalMedia` never
      returns: the page keeps waiting, never asks for the existing producers
      and ignores every `new-producer`. */
  lemma ServerProduceFailureStallsThePage(st: Server.State, s: SocketId, tid: ObjId, e: Server.Engine,
                                          sess: VideoCall.Session, call: VideoCall.Call, id: ObjId,
                                          tracks: seq<MediaClient.Track>, produce: MediaClient.Track -> MediaClient.ProduceReply)
    requires !e.ok
    requires sess.call == Some(call) && call.open && call.phase == VideoCall.AwaitRecv
    requires call.client.sendTransport.Some?
    requires tracks != [] && produce(tracks[0]) == PageProduceReply(Server.Step(st, s, Server.Produce(tid, tracks[0].kind), e).ack)
    ensures Server.Step(st, s, Server.Produce(tid, tracks[0].kind), e).ack == None
    ensures var r := VideoCall.Step(sess, VideoCall.RecvTransportCreated(id, Some(tracks), produce)).session;
            && r.call.Some? && r.call.value.phase == VideoCall.Producing && r.call.value.open
            && r.call.value.outbox == call.outbox
            && forall pid, kind, reply :: VideoCall.Step(r, VideoCall.NewProducer(pid, kind, reply)).session == r
  {
    assert produce(tracks[0]).ProduceNeverSettles?;
    assert MediaClient.ProduceHangs(call.client.sendTransport, tracks, produce);
  }
}
