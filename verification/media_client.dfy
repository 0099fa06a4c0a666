/** The browser-side `MediasoupClient`: its media bookkeeping, a producer per
    media kind and a consumer per consumer id. Media capture and the
    mediasoup-client transports are outside the model: what they return is
    passed in as parameters. */
module MediaClient {
  import opened Types

  /** A captured local track. */
  datatype Track = Track(id: TrackId, kind: Kind)

  /** A mediasoup-client device; `loaded` says whether loading the router's
      capabilities succeeded. */
  datatype Device = Device(loaded: bool)

  /** A consumer as the client keeps it: its id, the producer it receives,
      its kind and the remote track it delivers. */
  datatype ClientConsumer = ClientConsumer(id: ObjId, producerId: ObjId, kind: Kind, track: TrackId)

  /** The fields of a `MediasoupClient` instance. `localStream` is the list
      of tracks of the captured stream. */
  datatype Client = Client(
    roomId: string,
    device: Option<Device>,
    sendTransport: Option<ObjId>,
    recvTransport: Option<ObjId>,
    producers: map<Kind, ObjId>,
    consumers: map<ObjId, ClientConsumer>,
    localStream: Option<seq<Track>>)

  /** The constructor. */
  function NewClient(roomId: string): (c: Client)
    ensures c.roomId == roomId
    ensures c.device.None? && c.sendTransport.None? && c.recvTransport.None?
    ensures c.producers == map[] && c.consumers == map[] && c.localStream.None?
  {
    Client(roomId, None, None, None, map[], map[], None)
  }

  /** `createDevice`: the device is assigned before loading, so it is set
      even when loading fails. */
  function CreateDevice(c: Client, loadOk: bool): Client {
    c.(device := Some(Device(loadOk)))
  }

  /** The device exists and has loaded the router's capabilities, so reading
      its `rtpCapabilities` does not throw. */
  predicate Loaded(c: Client) {
    c.device.Some? && c.device.value.loaded
  }

  /** The consumer map is keyed by consumer id: every entry is stored under
      the id of the consumer it holds. */
  ghost predicate ConsumersKeyed(c: Client) {
    forall k :: k in c.consumers ==> c.consumers[k].id == k
  }

  /** A new client's consumer map is keyed by consumer id (it is empty), and
      creating the device keeps that. */
  lemma NewClientKeyed(roomId: string, loadOk: bool)
    ensures ConsumersKeyed(NewClient(roomId))
    ensures ConsumersKeyed(CreateDevice(NewClient(roomId), loadOk))
  {
  }

  /** What happens to the producer map while producing: a producer of `kind`
      is closed and deleted, or a new one is created and stored. */
  datatype ProduceAction = CloseProducer(kind: Kind, id: ObjId) | CreateProducer(kind: Kind, id: ObjId)

  /** The producer map after one action. */
  function Apply(m: map<Kind, ObjId>, a: ProduceAction): map<Kind, ObjId> {
    match a
    case CloseProducer(k, _) => m - {k}
    case CreateProducer(k, id) => m[k := id]
  }

  /** The producer map after a list of actions, applied in order. */
  function Replay(m: map<Kind, ObjId>, acts: seq<ProduceAction>): map<Kind, ObjId>
    decreases |acts|
  {
    if acts == [] then m else Replay(Apply(m, acts[0]), acts[1..])
  }

  /** Every close closes the producer currently stored for its kind, and
      every create finds its kind free: there is never a second live
      producer of one kind. */
  predicate Disciplined(m: map<Kind, ObjId>, acts: seq<ProduceAction>)
    decreases |acts|
  {
    acts == [] ||
    (&& (match acts[0]
         case CloseProducer(k, id) => k in m && m[k] == id
         case CreateProducer(k, _) => k !in m)
     && Disciplined(Apply(m, acts[0]), acts[1..]))
  }

  /** The kinds of a list of tracks. */
  function KindsOf(tracks: seq<Track>): set<Kind> {
    set t | t in tracks :: t.kind
  }

  /** How `sendTransport.produce` settles for one track: with the id of the
      new producer, by rejecting, or never, when the server does not
      acknowledge the `produce` message the transport relays. */
  datatype ProduceReply = ProducerCreated(id: ObjId) | ProduceRejected | ProduceNeverSettles

  /** The producer loop's result: the map, the actions taken, whether the
      loop finished without an error, and whether it is stuck awaiting a
      `produce` that never settles. */
  datatype ProduceRun = ProduceRun(producers: map<Kind, ObjId>, actions: seq<ProduceAction>, ok: bool, stalled: bool)

  /** The loop reaches a track whose `produce` never settles: there is a send
      transport, and every track before it is produced. */
  predicate ProduceHangs(send: Option<ObjId>, tracks: seq<Track>, produce: Track -> ProduceReply) {
    && send.Some?
    && exists i :: (0 <= i < |tracks| && produce(tracks[i]).ProduceNeverSettles? &&
                    forall j :: 0 <= j < i ==> produce(tracks[j]).ProducerCreated?)
  }

  /** Every producer created in `acts` is the one `produce` resolved to for a
      track of its kind. */
  predicate CreatedFrom(tracks: seq<Track>, produce: Track -> ProduceReply, acts: seq<ProduceAction>) {
    forall a :: a in acts && a.CreateProducer? ==>
      exists t :: t in tracks && t.kind == a.kind && produce(t) == ProducerCreated(a.id)
  }

  /** `tracks[i]` is the last track of its kind. */
  predicate LastOfKind(tracks: seq<Track>, i: int) {
    && 0 <= i < |tracks|
    && forall j :: i < j < |tracks| ==> tracks[j].kind != tracks[i].kind
  }

  /** The loop over the captured tracks: close and delete the producer of the
      track's kind if there is one, then produce the track on the send
      transport. `produce` says how the transport settles for a track; a
      missing send transport throws. The first rejection ends the loop, and
      a `produce` that never settles leaves it waiting, after the close of
      that track's kind. */
  function ProduceTracks(m: map<Kind, ObjId>, send: Option<ObjId>, tracks: seq<Track>, produce: Track -> ProduceReply): (r: ProduceRun)
    ensures r.producers == Replay(m, r.actions)
    ensures Disciplined(m, r.actions)
    ensures CreatedFrom(tracks, produce, r.actions)
    ensures !(r.ok && r.stalled)
    decreases |tracks|
  {
    if tracks == [] then ProduceRun(m, [], true, false)
    else
      var t := tracks[0];
      var closing := Closing(m, t.kind);
      var m1 := m - {t.kind};
      if send.None? || produce(t).ProduceRejected? then
        ProduceRun(m1, closing, false, false)
      else if produce(t).ProduceNeverSettles? then
        ProduceRun(m1, closing, false, true)
      else
        var id := produce(t).id;
        var rest := ProduceTracks(m1[t.kind := id], send, tracks[1..], produce);
        var tail := [CreateProducer(t.kind, id)] + rest.actions;
        ReplayAppend(m, closing, tail);
        DisciplinedAppend(m, closing, tail);
        assert tail[0] == CreateProducer(t.kind, id) && tail[1..] == rest.actions;
        assert CreatedFrom(tracks, produce, closing + tail) by {
          forall a | a in closing + tail && a.CreateProducer?
            ensures exists u :: u in tracks && u.kind == a.kind && produce(u) == ProducerCreated(a.id)
          {
            if a in rest.actions {
              var u :| u in tracks[1..] && u.kind == a.kind && produce(u) == ProducerCreated(a.id);
              assert u in tracks;
            } else {
              assert a == CreateProducer(t.kind, id) && t in tracks;
            }
          }
        }
        ProduceRun(rest.producers, closing + tail, rest.ok, rest.stalled)
  }

  /** The close that precedes producing a track of kind `k`: the producer
      stored for `k`, if any. */
  function Closing(m: map<Kind, ObjId>, k: Kind): (r: seq<ProduceAction>)
    ensures Replay(m, r) == m - {k}
    ensures Disciplined(m, r)
    ensures forall a :: a in r ==> a.CloseProducer?
  {
    if k in m then
      var r := [CloseProducer(k, m[k])];
      assert r[1..] == [];
      r
    else []
  }

  /** The producer loop completes exactly when there is a send transport and
      it produces every track (or there are no tracks). */
  lemma {:induction false} ProduceTracksOk(m: map<Kind, ObjId>, send: Option<ObjId>, tracks: seq<Track>, produce: Track -> ProduceReply)
    ensures ProduceTracks(m, send, tracks, produce).ok <==>
              tracks == [] || (send.Some? && forall t :: t in tracks ==> produce(t).ProducerCreated?)
    decreases |tracks|
  {
    if tracks != [] {
      assert forall u :: u in tracks <==> u == tracks[0] || u in tracks[1..] by {
        assert tracks == [tracks[0]] + tracks[1..];
      }
      if send.Some? && produce(tracks[0]).ProducerCreated? {
        var m1 := (m - {tracks[0].kind})[tracks[0].kind := produce(tracks[0]).id];
        ProduceTracksOk(m1, send, tracks[1..], produce);
      }
    }
  }

  /** The producer loop is left waiting exactly when it reaches a track whose
      `produce` never settles. */
  lemma {:induction false} ProduceTracksStall(m: map<Kind, ObjId>, send: Option<ObjId>, tracks: seq<Track>, produce: Track -> ProduceReply)
    ensures ProduceTracks(m, send, tracks, produce).stalled <==> ProduceHangs(send, tracks, produce)
    decreases |tracks|
  {
    if tracks != [] && send.Some? {
      var t := tracks[0];
      match produce(t)
      case ProduceRejected =>
      case ProduceNeverSettles =>
        assert produce(tracks[0]).ProduceNeverSettles?;
      case ProducerCreated(id) =>
        var rest := tracks[1..];
        ProduceTracksStall((m - {t.kind})[t.kind := id], send, rest, produce);
        if ProduceHangs(send, tracks, produce) {
          var i :| 0 <= i < |tracks| && produce(tracks[i]).ProduceNeverSettles? &&
                   forall j :: 0 <= j < i ==> produce(tracks[j]).ProducerCreated?;
          assert i != 0;
          assert rest[i - 1] == tracks[i];
          assert forall j :: 0 <= j < i - 1 ==> rest[j] == tracks[j + 1];
          assert ProduceHangs(send, rest, produce);
        }
        if ProduceHangs(send, rest, produce) {
          var i :| 0 <= i < |rest| && produce(rest[i]).ProduceNeverSettles? &&
                   forall j :: 0 <= j < i ==> produce(rest[j]).ProducerCreated?;
          assert tracks[i + 1] == rest[i];
          forall j | 0 <= j < i + 1
            ensures produce(tracks[j]).ProducerCreated?
          {
            if j > 0 {
              assert tracks[j] == rest[j - 1];
            }
          }
          assert ProduceHangs(send, tracks, produce);
        }
    }
  }

  /** Kinds that no captured track has keep their producer, or their
      absence of one, whether or not the loop fails. */
  lemma {:induction false} ProduceTracksUntouched(m: map<Kind, ObjId>, send: Option<ObjId>, tracks: seq<Track>, produce: Track -> ProduceReply, k: Kind)
    requires k !in KindsOf(tracks)
    ensures var r := ProduceTracks(m, send, tracks, produce);
            && (k in r.producers <==> k in m)
            && (k in m ==> r.producers[k] == m[k])
    decreases |tracks|
  {
    if tracks != [] {
      var t := tracks[0];
      assert t in tracks;
      if send.Some? && produce(t).ProducerCreated? {
        assert KindsOf(tracks[1..]) <= KindsOf(tracks) by {
          forall u | u in tracks[1..] ensures u in tracks { }
        }
        ProduceTracksUntouched((m - {t.kind})[t.kind := produce(t).id], send, tracks[1..], produce, k);
      }
    }
  }

  /** After a loop that does not fail, every kind of the captured stream
      maps to a producer created by this loop. */
  lemma {:induction false} ProduceTracksFresh(m: map<Kind, ObjId>, send: Option<ObjId>, tracks: seq<Track>, produce: Track -> ProduceReply)
    ensures var r := ProduceTracks(m, send, tracks, produce);
            r.ok ==> forall t :: t in tracks ==>
              t.kind in r.producers && CreateProducer(t.kind, r.producers[t.kind]) in r.actions
    decreases |tracks|
  {
    var r := ProduceTracks(m, send, tracks, produce);
    if tracks != [] && send.Some? && produce(tracks[0]).ProducerCreated? {
      var t := tracks[0];
      var id := produce(t).id;
      var m1 := (m - {t.kind})[t.kind := id];
      var rest := ProduceTracks(m1, send, tracks[1..], produce);
      ProduceTracksFresh(m1, send, tracks[1..], produce);
      assert r.actions == Closing(m, t.kind) + ([CreateProducer(t.kind, id)] + rest.actions);
      if r.ok {
        forall u | u in tracks
          ensures u.kind in r.producers && CreateProducer(u.kind, r.producers[u.kind]) in r.actions
        {
          if u in tracks[1..] {
            assert CreateProducer(u.kind, rest.producers[u.kind]) in rest.actions;
          } else {
            assert tracks == [t] + tracks[1..];
            assert u == t;
            if t.kind in KindsOf(tracks[1..]) {
              var v :| v in tracks[1..] && v.kind == t.kind;
              assert CreateProducer(v.kind, rest.producers[v.kind]) in rest.actions;
            } else {
              ProduceTracksUntouched(m1, send, tracks[1..], produce, t.kind);
              assert CreateProducer(t.kind, id) in r.actions;
            }
          }
        }
      }
    }
  }

  /** After a loop that does not fail, each kind maps to the producer that
      `produce` resolved to for the last track of that kind. */
  lemma {:induction false} ProduceTracksLast(m: map<Kind, ObjId>, send: Option<ObjId>, tracks: seq<Track>, produce: Track -> ProduceReply)
    ensures var r := ProduceTracks(m, send, tracks, produce);
            r.ok ==> forall i :: LastOfKind(tracks, i) ==>
              tracks[i].kind in r.producers && produce(tracks[i]) == ProducerCreated(r.producers[tracks[i].kind])
    decreases |tracks|
  {
    var r := ProduceTracks(m, send, tracks, produce);
    if tracks != [] && send.Some? && produce(tracks[0]).ProducerCreated? {
      var t := tracks[0];
      var m1 := (m - {t.kind})[t.kind := produce(t).id];
      var rest := tracks[1..];
      ProduceTracksLast(m1, send, rest, produce);
      if r.ok {
        forall i | LastOfKind(tracks, i)
          ensures tracks[i].kind in r.producers && produce(tracks[i]) == ProducerCreated(r.producers[tracks[i].kind])
        {
          if i == 0 {
            LastOfKindHead(tracks);
            ProduceTracksUntouched(m1, send, rest, produce, t.kind);
          } else {
            LastOfKindTail(tracks, i);
          }
        }
      }
    }
  }

  lemma LastOfKindHead(tracks: seq<Track>)
    requires LastOfKind(tracks, 0)
    ensures tracks[0].kind !in KindsOf(tracks[1..])
  {
    forall u | u in tracks[1..]
      ensures u.kind != tracks[0].kind
    {
      var j :| 0 <= j < |tracks[1..]| && tracks[1..][j] == u;
      assert tracks[j + 1] == u;
    }
  }

  lemma LastOfKindTail(tracks: seq<Track>, i: int)
    requires LastOfKind(tracks, i) && i > 0
    ensures LastOfKind(tracks[1..], i - 1)
  {
    forall j | i - 1 < j < |tracks| - 1
      ensures tracks[1..][j].kind != tracks[1..][i - 1].kind
    {
      assert tracks[1..][j] == tracks[j + 1];
    }
  }

  lemma {:induction false} ReplayAppend(m: map<Kind, ObjId>, a: seq<ProduceAction>, b: seq<ProduceAction>)
    ensures Replay(m, a + b) == Replay(Replay(m, a), b)
    decreases |a|
  {
    if a == [] {
      assert a + b == b;
    } else {
      assert (a + b)[0] == a[0];
      assert (a + b)[1..] == a[1..] + b;
      ReplayAppend(Apply(m, a[0]), a[1..], b);
    }
  }

  lemma {:induction false} DisciplinedAppend(m: map<Kind, ObjId>, a: seq<ProduceAction>, b: seq<ProduceAction>)
    ensures Disciplined(m, a + b) <==> Disciplined(m, a) && Disciplined(Replay(m, a), b)
    decreases |a|
  {
    if a == [] {
      assert a + b == b;
    } else {
      assert (a + b)[0] == a[0];
      assert (a + b)[1..] == a[1..] + b;
      DisciplinedAppend(Apply(m, a[0]), a[1..], b);
    }
  }

  /** `produceLocalMedia`'s result: the client after the call, the producer
      actions, whether the call resolved, and whether it never settles
      (neither: it rethrew). */
  datatype ProduceResult = ProduceResult(client: Client, actions: seq<ProduceAction>, ok: bool, stalled: bool)

  /** `produceLocalMedia`. `capture` is what `getUserMedia` yields: the tracks
      of the captured stream, or `None` when capture fails. */
  function ProduceLocalMedia(c: Client, capture: Option<seq<Track>>, produce: Track -> ProduceReply): (r: ProduceResult)
    ensures capture.None? ==> r.client == c && r.actions == [] && !r.ok && !r.stalled
    ensures capture.Some? ==> r.client.localStream == capture
    ensures r.client == c.(producers := r.client.producers, localStream := r.client.localStream)
    ensures r.client.producers == Replay(c.producers, r.actions)
    ensures Disciplined(c.producers, r.actions)
    ensures capture.Some? ==> forall k :: k !in KindsOf(capture.value) ==>
              (k in r.client.producers <==> k in c.producers) && (k in c.producers ==> r.client.producers[k] == c.producers[k])
    ensures r.ok ==> capture.Some? && forall t :: t in capture.value ==>
              t.kind in r.client.producers && CreateProducer(t.kind, r.client.producers[t.kind]) in r.actions
    ensures r.ok <==>
              && capture.Some?
              && (capture.value == [] || (c.sendTransport.Some? && forall t :: t in capture.value ==> produce(t).ProducerCreated?))
    ensures capture.Some? ==> CreatedFrom(capture.value, produce, r.actions)
    ensures r.ok ==> capture.Some? && forall i :: LastOfKind(capture.value, i) ==>
              var k := capture.value[i].kind;
              k in r.client.producers && produce(capture.value[i]) == ProducerCreated(r.client.producers[k])
    ensures r.stalled <==> capture.Some? && ProduceHangs(c.sendTransport, capture.value, produce)
    ensures !(r.ok && r.stalled)
  {
    match capture
    case None => ProduceResult(c, [], false, false)
    case Some(tracks) =>
      var run := ProduceTracks(c.producers, c.sendTransport, tracks, produce);
      ProduceTracksFresh(c.producers, c.sendTransport, tracks, produce);
      ProduceTracksOk(c.producers, c.sendTransport, tracks, produce);
      ProduceTracksStall(c.producers, c.sendTransport, tracks, produce);
      ProduceTracksLast(c.producers, c.sendTransport, tracks, produce);
      assert forall k :: k !in KindsOf(tracks) ==>
               (k in run.producers <==> k in c.producers) && (k in c.producers ==> run.producers[k] == c.producers[k]) by {
        forall k | k !in KindsOf(tracks)
          ensures (k in run.producers <==> k in c.producers) && (k in c.producers ==> run.producers[k] == c.producers[k])
        {
          ProduceTracksUntouched(c.producers, c.sendTransport, tracks, produce, k);
        }
      }
      ProduceResult(c.(localStream := capture, producers := run.producers), run.actions, run.ok, run.stalled)
  }

  /** The acknowledgement the client's `consume` callback expects:
      `{ id, kind, rtpParameters }`. */
  datatype ConsumeAck = ConsumeAck(id: ObjId, kind: Kind)

  /** How the promise of `consumeRemoteMedia` settles; `Pending` is a
      promise that never settles. */
  datatype ConsumeOutcome = Pending | Resolved(consumer: ClientConsumer) | Rejected

  datatype ConsumeResult = ConsumeResult(client: Client, outcome: ConsumeOutcome, sent: bool)

  /** `consumeRemoteMedia`. Reading the capabilities of a missing or
      unloaded device throws before the `consume` message is sent, which
      rejects the promise; otherwise the message is
      sent (`sent`) and the promise waits for the server's acknowledgement
      `ack`. With one, the receive transport builds the consumer, delivering
      `track`, or fails (`None`, or no receive transport). */
  function ConsumeRemoteMedia(c: Client, producerId: ObjId, ack: Option<ConsumeAck>, track: Option<TrackId>): (r: ConsumeResult)
    ensures r.sent <==> Loaded(c)
    ensures r.outcome.Pending? <==> Loaded(c) && ack.None?
    ensures r.outcome.Resolved? <==> Loaded(c) && ack.Some? && c.recvTransport.Some? && track.Some?
    ensures !r.outcome.Resolved? ==> r.client == c
    ensures r.outcome.Resolved? ==>
              var k := r.outcome.consumer;
              && k == ClientConsumer(ack.value.id, producerId, ack.value.kind, track.value)
              && r.client == c.(consumers := r.client.consumers)
              && k.id in r.client.consumers && r.client.consumers[k.id] == k
              && forall x :: x != k.id ==>
                   && (x in r.client.consumers <==> x in c.consumers)
                   && (x in c.consumers ==> r.client.consumers[x] == c.consumers[x])
  {
    if !Loaded(c) then ConsumeResult(c, Rejected, false)
    else if ack.None? then ConsumeResult(c, Pending, true)
    else if c.recvTransport.None? || track.None? then ConsumeResult(c, Rejected, true)
    else
      var k := ClientConsumer(ack.value.id, producerId, ack.value.kind, track.value);
      ConsumeResult(c.(consumers := c.consumers[k.id := k]), Resolved(k), true)
  }

  /** Producing local media and consuming remote media keep the consumer map
      keyed by consumer id. */
  lemma ClientStepsKeepKeyed(c: Client, capture: Option<seq<Track>>, produce: Track -> ProduceReply,
                             producerId: ObjId, ack: Option<ConsumeAck>, track: Option<TrackId>, loadOk: bool)
    requires ConsumersKeyed(c)
    ensures ConsumersKeyed(CreateDevice(c, loadOk))
    ensures ConsumersKeyed(ProduceLocalMedia(c, capture, produce).client)
    ensures ConsumersKeyed(ConsumeRemoteMedia(c, producerId, ack, track).client)
  {
    var r := ConsumeRemoteMedia(c, producerId, ack, track);
    if r.outcome.Resolved? {
      var k := r.outcome.consumer;
      forall x | x in r.client.consumers
        ensures r.client.consumers[x].id == x
      {
        if x != k.id {
          assert x in c.consumers;
        }
      }
    }
  }
}
