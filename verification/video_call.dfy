/** The `VideoCall` page: the media-options gate, the `init` sequence that
    drives one `MediasoupClient` through its socket events, the
    `remoteStreams` table keyed by producer id, and the teardown shared by
    the effect cleanup and `handleLeaveCall`. React's rendering is left out;
    every socket event is handled to completion in one step. */
module VideoCall {
  import opened Types
  import opened MediaClient

  /** The two checkboxes of the media prompt. */
  datatype MediaOptions = MediaOptions(video: bool, audio: bool)

  /** How far `init` has come: which nested socket listener is the newest
      one registered. `Connecting`: waiting for the socket's `connect`;
      `AwaitCaps`: for `router-rtp-capabilities`; `AwaitSend` and `AwaitRecv`:
      for the transport-created events; `Producing`: stuck in
      `produceLocalMedia` on a `produce` that never settles, so `new-producer`
      is never listened to and `getProducers` never sent; `Live`:
      `new-producer` is handled. */
  datatype Phase = Connecting | AwaitCaps | AwaitSend | AwaitRecv | Producing | Live

  /** The signalling requests that `init` and the consume paths send on the
      page's socket; the `connectTransport` and `produce` requests the
      engine's transport listeners send are not logged. */
  datatype Outgoing =
    | JoinRoom(roomId: string)
    | GetRouterRtpCapabilities
    | CreateWebRtcTransport(direction: string)
    | GetProducers
    | Consume(producerId: ObjId)

  /** The client created by one effect run (`clientRef.current`), how far
      its `init` has come, the signalling requests its socket has sent, and
      whether the socket is still open. */
  datatype Call = Call(client: Client, phase: Phase, outbox: seq<Outgoing>, open: bool)

  /** The page's state. `remoteStreams` maps a producer id to the track of
      the consumer that receives it; `home` records `navigate('/')`. */
  datatype Session = Session(
    roomId: string,
    showMediaPrompt: bool,
    options: MediaOptions,
    call: Option<Call>,
    remoteStreams: map<ObjId, TrackId>,
    home: bool)

  /** What the server side and the receive transport answer to one
      `consume`: the acknowledgement (if any) and the consumer's track (or
      `None` when the transport fails). */
  datatype ConsumeReply = ConsumeReply(ack: Option<ConsumeAck>, track: Option<TrackId>)

  /** What can happen to the page. Socket events carry what the browser and
      the transports return while they are handled. */
  datatype Input =
    | ToggleVideo
    | ToggleAudio
    | JoinMeeting
    | SocketConnected
    | RouterCapabilities(loadOk: bool)
    | SendTransportCreated(id: ObjId)
    | RecvTransportCreated(id: ObjId, capture: Option<seq<Track>>, produce: Track -> ProduceReply)
    | NewProducer(producerId: ObjId, kind: Kind, reply: ConsumeReply)
    | ProducersList(list: seq<ProducerInfo>, replies: ObjId -> ConsumeReply)
    | LeaveCall
    | Unmount

  /** A resource release performed by a teardown. */
  datatype TeardownAction = CloseProducers(ids: set<ObjId>) | CloseTransport(id: ObjId) | DisconnectSocket | StopTrack(id: TrackId)

  /** The page after an input, and the releases it performed. */
  datatype Reaction = Reaction(session: Session, teardown: seq<TeardownAction>)

  /** The page as first rendered for a room. */
  function Mount(roomId: string): Session {
    Session(roomId, true, MediaOptions(false, false), None, map[], false)
  }

  function Stops(tracks: seq<Track>): (r: seq<TeardownAction>)
    ensures |r| == |tracks|
    ensures forall i :: 0 <= i < |tracks| ==> r[i] == StopTrack(tracks[i].id)
  {
    seq(|tracks|, i requires 0 <= i < |tracks| => StopTrack(tracks[i].id))
  }

  /** The transport closes of a teardown: each transport that exists. */
  function TransportCloses(c: Client): (r: seq<TeardownAction>)
    ensures forall a :: a in r ==> a.CloseTransport?
    ensures forall t: ObjId :: CloseTransport(t) in r <==> c.sendTransport == Some(t) || c.recvTransport == Some(t)
  {
    (if c.sendTransport.Some? then [CloseTransport(c.sendTransport.value)] else [])
    + (if c.recvTransport.Some? then [CloseTransport(c.recvTransport.value)] else [])
  }

  /** The track stops of a teardown: every track of the local stream. */
  function LocalStops(c: Client): (r: seq<TeardownAction>)
    ensures forall a :: a in r ==> a.StopTrack?
    ensures forall x: TrackId :: StopTrack(x) in r <==> c.localStream.Some? && exists t :: t in c.localStream.value && t.id == x
  {
    if c.localStream.None? then []
    else
      var tracks := c.localStream.value;
      var r := Stops(tracks);
      assert forall x :: StopTrack(x) in r <==> exists t :: t in tracks && t.id == x by {
        forall x ensures StopTrack(x) in r <==> exists t :: t in tracks && t.id == x {
          if StopTrack(x) in r {
            var k :| 0 <= k < |r| && r[k] == StopTrack(x);
            assert tracks[k] in tracks;
          }
          if exists t :: t in tracks && t.id == x {
            var t :| t in tracks && t.id == x;
            var k :| 0 <= k < |tracks| && tracks[k] == t;
            assert r[k] == StopTrack(x);
          }
        }
      }
      r
  }

  /** The release sequence of the effect cleanup and of `handleLeaveCall`:
      every producer, then each transport that exists, then the socket, then
      every local track. The consumers are not closed. */
  function Teardown(c: Client): (r: seq<TeardownAction>)
    ensures |r| >= 2 && r[0] == CloseProducers(c.producers.Values)
    ensures forall t: ObjId :: CloseTransport(t) in r <==> c.sendTransport == Some(t) || c.recvTransport == Some(t)
    ensures exists i :: 0 < i < |r| && r[i] == DisconnectSocket
              && (forall j :: 0 <= j < i ==> r[j].CloseProducers? || r[j].CloseTransport?)
              && (forall j :: i < j < |r| ==> r[j].StopTrack?)
    ensures forall x: TrackId :: StopTrack(x) in r <==> c.localStream.Some? && exists t :: t in c.localStream.value && t.id == x
  {
    var closes := [CloseProducers(c.producers.Values)] + TransportCloses(c);
    var stops := LocalStops(c);
    TeardownShape(closes, stops);
    closes + [DisconnectSocket] + stops
  }

  /** A teardown built from releases, the socket disconnect, then track
      stops: the disconnect separates the two, and each release or stop is
      found on its own side. */
  lemma TeardownShape(closes: seq<TeardownAction>, stops: seq<TeardownAction>)
    requires forall a :: a in closes ==> a.CloseProducers? || a.CloseTransport?
    requires forall a :: a in stops ==> a.StopTrack?
    ensures var r := closes + [DisconnectSocket] + stops;
            && (forall t: ObjId :: CloseTransport(t) in r <==> CloseTransport(t) in closes)
            && (forall x: TrackId :: StopTrack(x) in r <==> StopTrack(x) in stops)
            && r[|closes|] == DisconnectSocket
            && (forall j :: 0 <= j < |closes| ==> r[j].CloseProducers? || r[j].CloseTransport?)
            && (forall j :: |closes| < j < |r| ==> r[j].StopTrack?)
  {
    var r := closes + [DisconnectSocket] + stops;
    var i := |closes|;
    assert forall j :: 0 <= j < i ==> r[j] == closes[j];
    assert forall j :: i < j < |r| ==> r[j] == stops[j - i - 1];
  }

  /** The effect body: nothing while the media prompt is showing; otherwise
      a new client for the room, whose socket starts connecting. */
  function RunEffect(sess: Session): (r: Session)
    ensures sess.showMediaPrompt ==> r == sess
    ensures !sess.showMediaPrompt ==>
              && r.call.Some? && r.call.value.outbox == [] && r.call.value.phase == Connecting && r.call.value.open
              && r.call.value.client == NewClient(sess.roomId)
              && r == sess.(call := r.call)
  {
    if sess.showMediaPrompt then sess
    else sess.(call := Some(Call(NewClient(sess.roomId), Connecting, [], true)))
  }

  /** The effect cleanup, and `handleLeaveCall` without its navigation:
      the teardown of the current client, if there is one. */
  function Release(sess: Session): (r: Reaction)
    ensures sess.call.None? ==> r == Reaction(sess, [])
    ensures sess.call.Some? ==>
              && r.teardown == Teardown(sess.call.value.client)
              && r.session == sess.(call := Some(sess.call.value.(open := false)))
  {
    match sess.call
    case None => Reaction(sess, [])
    case Some(call) => Reaction(sess.(call := Some(call.(open := false))), Teardown(call.client))
  }

  /** A dependency of the effect changed: the previous run's cleanup, if
      that run got past the prompt guard, then a new run. */
  function Rerun(sess: Session, next: Session): Reaction {
    var cleaned := if sess.showMediaPrompt then Reaction(next, []) else Release(next);
    Reaction(RunEffect(cleaned.session), cleaned.teardown)
  }

  /** `remoteStreams` after a consume of `producerId` settled with `outcome`:
      a resolved consume stores its consumer's track under the producer id;
      any other outcome leaves the table as it was. */
  function Consumed(streams: map<ObjId, TrackId>, producerId: ObjId, outcome: ConsumeOutcome): (r: map<ObjId, TrackId>)
    ensures outcome.Resolved? ==> producerId in r && r[producerId] == outcome.consumer.track
    ensures !outcome.Resolved? ==> r == streams
    ensures forall k :: k != producerId ==> (k in r <==> k in streams) && (k in streams ==> r[k] == streams[k])
    ensures r.Keys <= streams.Keys + {producerId}
  {
    if outcome.Resolved? then streams[producerId := outcome.consumer.track] else streams
  }

  /** The producer ids of a `producers` reply. */
  function ListedIds(list: seq<ProducerInfo>): set<ObjId> {
    set e | e in list :: e.producerId
  }

  /** The backfill loop's result: the client, the table, the `consume`
      messages sent, and whether the loop is stuck waiting on a promise that
      never settles. */
  datatype Backfilled = Backfilled(client: Client, streams: map<ObjId, TrackId>, sent: seq<Outgoing>, stalled: bool)

  /** The `producers` handler: the listed producers are consumed one at a
      time, each awaited; a rejected consume is skipped, and a consume that
      never settles stops the loop there. */
  function Backfill(c: Client, streams: map<ObjId, TrackId>, list: seq<ProducerInfo>, replies: ObjId -> ConsumeReply): (r: Backfilled)
    ensures forall k :: k in r.streams ==> k in streams || k in ListedIds(list)
    ensures forall k :: k !in ListedIds(list) ==> (k in r.streams <==> k in streams) && (k in streams ==> r.streams[k] == streams[k])
    decreases |list|
  {
    if list == [] then Backfilled(c, streams, [], false)
    else
      var pid := list[0].producerId;
      var res := ConsumeRemoteMedia(c, pid, replies(pid).ack, replies(pid).track);
      var sent := if res.sent then [Consume(pid)] else [];
      assert forall e :: e in list <==> e == list[0] || e in list[1..] by {
        assert list == [list[0]] + list[1..];
      }
      if res.outcome.Pending? then Backfilled(res.client, streams, sent, true)
      else
        var rest := Backfill(res.client, Consumed(streams, pid, res.outcome), list[1..], replies);
        Backfilled(rest.client, rest.streams, sent + rest.sent, rest.stalled)
  }

  /** The consume of `pid` with these replies resolves. */
  predicate Resolves(c: Client, pid: ObjId, replies: ObjId -> ConsumeReply) {
    Loaded(c) && c.recvTransport.Some? && replies(pid).ack.Some? && replies(pid).track.Some?
  }

  /** The consume of `pid` never settles: the message goes out and no
      acknowledgement comes back. */
  predicate Hangs(c: Client, pid: ObjId, replies: ObjId -> ConsumeReply) {
    Loaded(c) && replies(pid).ack.None?
  }

  /** The position of the first listed producer whose consume never
      settles, or the length of the list when there is none. */
  function StallAt(c: Client, list: seq<ProducerInfo>, replies: ObjId -> ConsumeReply): (n: nat)
    ensures n <= |list|
    ensures forall j :: 0 <= j < n ==> !Hangs(c, list[j].producerId, replies)
    ensures n < |list| ==> Hangs(c, list[n].producerId, replies)
    decreases |list|
  {
    if list == [] then 0
    else if Hangs(c, list[0].producerId, replies) then 0
    else 1 + StallAt(c, list[1..], replies)
  }

  /** Reference definition of what the backfill does to the table, written
      without promises: for each entry in order, the track of a consume that
      resolves is stored under the producer id, and any other entry is
      skipped. */
  function Stored(c: Client, streams: map<ObjId, TrackId>, list: seq<ProducerInfo>, replies: ObjId -> ConsumeReply): map<ObjId, TrackId>
    decreases |list|
  {
    if list == [] then streams
    else
      var pid := list[0].producerId;
      var next := if Resolves(c, pid, replies) then streams[pid := replies(pid).track.value] else streams;
      Stored(c, next, list[1..], replies)
  }

  /** Only the device and the receive transport decide how consumes settle. */
  lemma {:induction false} SameTransports(c: Client, d: Client, streams: map<ObjId, TrackId>, list: seq<ProducerInfo>, replies: ObjId -> ConsumeReply)
    requires c.device == d.device && c.recvTransport == d.recvTransport
    ensures StallAt(c, list, replies) == StallAt(d, list, replies)
    ensures Stored(c, streams, list, replies) == Stored(d, streams, list, replies)
    decreases |list|
  {
    if list != [] {
      var pid := list[0].producerId;
      var next := if Resolves(c, pid, replies) then streams[pid := replies(pid).track.value] else streams;
      SameTransports(c, d, next, list[1..], replies);
    }
  }

  /** One turn of the backfill loop on an entry whose consume settles: the
      rest of the loop runs on the client and table that turn leaves. */
  lemma BackfillTurn(c: Client, streams: map<ObjId, TrackId>, list: seq<ProducerInfo>, replies: ObjId -> ConsumeReply)
    requires list != [] && !Hangs(c, list[0].producerId, replies)
    ensures var pid := list[0].producerId;
            var res := ConsumeRemoteMedia(c, pid, replies(pid).ack, replies(pid).track);
            var next := if Resolves(c, pid, replies) then streams[pid := replies(pid).track.value] else streams;
            var rest := Backfill(res.client, next, list[1..], replies);
            var r := Backfill(c, streams, list, replies);
            && res.client.device == c.device && res.client.recvTransport == c.recvTransport
            && r.streams == rest.streams && r.stalled == rest.stalled
            && r.sent == (if Loaded(c) then [Consume(pid)] else []) + rest.sent
  {
    var pid := list[0].producerId;
    var res := ConsumeRemoteMedia(c, pid, replies(pid).ack, replies(pid).track);
    if Resolves(c, pid, replies) {
      assert res.outcome.Resolved? && res.outcome.consumer.track == replies(pid).track.value;
    } else {
      assert !res.outcome.Resolved? && !res.outcome.Pending?;
    }
  }

  /** A backfill whose first consume never settles sends that one `consume`
      and stops with the table unchanged. */
  lemma BackfillHangs(c: Client, streams: map<ObjId, TrackId>, list: seq<ProducerInfo>, replies: ObjId -> ConsumeReply)
    requires list != [] && Hangs(c, list[0].producerId, replies)
    ensures Backfill(c, streams, list, replies) == Backfilled(c, streams, [Consume(list[0].producerId)], true)
  {
  }

  /** The backfill, whatever each consume does, stops exactly at the first
      consume that never settles. */
  lemma {:induction false} BackfillStallsIffHang(c: Client, streams: map<ObjId, TrackId>, list: seq<ProducerInfo>, replies: ObjId -> ConsumeReply)
    ensures Backfill(c, streams, list, replies).stalled <==> StallAt(c, list, replies) < |list|
    decreases |list|
  {
    if list != [] {
      var pid := list[0].producerId;
      if Hangs(c, pid, replies) {
        BackfillHangs(c, streams, list, replies);
      } else {
        var res := ConsumeRemoteMedia(c, pid, replies(pid).ack, replies(pid).track);
        var next := if Resolves(c, pid, replies) then streams[pid := replies(pid).track.value] else streams;
        BackfillTurn(c, streams, list, replies);
        SameTransports(res.client, c, next, list[1..], replies);
        BackfillStallsIffHang(res.client, next, list[1..], replies);
      }
    }
  }

  /** The backfill, whatever each consume does, leaves the table that the
      reference `Stored` gives over the entries before the first consume
      that never settles. */
  lemma {:induction false} BackfillStopsAtFirstHang(c: Client, streams: map<ObjId, TrackId>, list: seq<ProducerInfo>, replies: ObjId -> ConsumeReply)
    ensures Backfill(c, streams, list, replies).streams == Stored(c, streams, list[..StallAt(c, list, replies)], replies)
    decreases |list|
  {
    if list != [] {
      var pid := list[0].producerId;
      var n := StallAt(c, list, replies);
      if Hangs(c, pid, replies) {
        BackfillHangs(c, streams, list, replies);
        assert list[..n] == [];
      } else {
        var res := ConsumeRemoteMedia(c, pid, replies(pid).ack, replies(pid).track);
        var next := if Resolves(c, pid, replies) then streams[pid := replies(pid).track.value] else streams;
        BackfillTurn(c, streams, list, replies);
        var pre := list[..n];
        assert pre != [] && pre[0] == list[0] && pre[1..] == list[1..][..n - 1];
        SameTransports(res.client, c, next, list[1..], replies);
        SameTransports(res.client, c, next, pre[1..], replies);
        BackfillStopsAtFirstHang(res.client, next, list[1..], replies);
      }
    }
  }

  /** The `consume` messages for a list of producers, one per entry, in
      order. */
  function ConsumesOf(list: seq<ProducerInfo>): (r: seq<Outgoing>)
    ensures |r| == |list|
    ensures forall i :: 0 <= i < |list| ==> r[i] == Consume(list[i].producerId)
    decreases |list|
  {
    if list == [] then []
    else
      var rest := ConsumesOf(list[1..]);
      assert forall i :: 1 <= i < |list| ==> list[1..][i - 1] == list[i];
      [Consume(list[0].producerId)] + rest
  }

  /** The `consume` messages for a non-empty prefix start with the first
      entry's. */
  lemma ConsumesOfPrefix(list: seq<ProducerInfo>, m: nat)
    requires 1 <= m <= |list|
    ensures ConsumesOf(list[..m]) == [Consume(list[0].producerId)] + ConsumesOf(list[1..][..m - 1])
  {
    var pre := list[..m];
    assert pre[0] == list[0] && pre[1..] == list[1..][..m - 1];
  }

  /** Without a loaded device the backfill sends nothing. */
  lemma {:induction false} BackfillUnloadedSendsNothing(c: Client, streams: map<ObjId, TrackId>, list: seq<ProducerInfo>, replies: ObjId -> ConsumeReply)
    requires !Loaded(c)
    ensures Backfill(c, streams, list, replies).sent == []
    decreases |list|
  {
    if list != [] {
      var pid := list[0].producerId;
      var res := ConsumeRemoteMedia(c, pid, replies(pid).ack, replies(pid).track);
      BackfillTurn(c, streams, list, replies);
      BackfillUnloadedSendsNothing(res.client, streams, list[1..], replies);
    }
  }

  /** With a loaded device the backfill sends the `consume` of every entry
      up to and including the first that never settles. */
  lemma {:induction false} BackfillLoadedSendsReached(c: Client, streams: map<ObjId, TrackId>, list: seq<ProducerInfo>, replies: ObjId -> ConsumeReply)
    requires Loaded(c)
    ensures var n := StallAt(c, list, replies);
            Backfill(c, streams, list, replies).sent == ConsumesOf(list[..if n < |list| then n + 1 else n])
    decreases |list|
  {
    if list != [] {
      var pid := list[0].producerId;
      var n := StallAt(c, list, replies);
      if Hangs(c, pid, replies) {
        BackfillHangs(c, streams, list, replies);
        ConsumesOfPrefix(list, 1);
      } else {
        var res := ConsumeRemoteMedia(c, pid, replies(pid).ack, replies(pid).track);
        var next := if Resolves(c, pid, replies) then streams[pid := replies(pid).track.value] else streams;
        BackfillTurn(c, streams, list, replies);
        SameTransports(res.client, c, next, list[1..], replies);
        BackfillLoadedSendsReached(res.client, next, list[1..], replies);
        var m := if n < |list| then n + 1 else n;
        assert m - 1 == (if n - 1 < |list[1..]| then n else n - 1);
        ConsumesOfPrefix(list, m);
      }
    }
  }

  /** The backfill sends one `consume` per entry it reaches, in list order:
      up to and including the first that never settles, or every entry; it
      sends none when the device is not loaded. */
  lemma BackfillSendsInOrder(c: Client, streams: map<ObjId, TrackId>, list: seq<ProducerInfo>, replies: ObjId -> ConsumeReply)
    ensures var n := StallAt(c, list, replies);
            Backfill(c, streams, list, replies).sent ==
              if !Loaded(c) then [] else ConsumesOf(list[..if n < |list| then n + 1 else n])
  {
    if Loaded(c) {
      BackfillLoadedSendsReached(c, streams, list, replies);
    } else {
      BackfillUnloadedSendsNothing(c, streams, list, replies);
    }
  }

  /** When every listed consume resolves, the loop runs to the end and the
      table gains exactly the listed producer ids, each once however often
      it is listed or was already announced. */
  lemma {:induction false} BackfillAllResolve(c: Client, streams: map<ObjId, TrackId>, list: seq<ProducerInfo>, replies: ObjId -> ConsumeReply)
    requires forall e :: e in list ==> Resolves(c, e.producerId, replies)
    ensures var r := Backfill(c, streams, list, replies);
            && !r.stalled
            && r.streams.Keys == streams.Keys + ListedIds(list)
    decreases |list|
  {
    if list != [] {
      var pid := list[0].producerId;
      assert list[0] in list;
      var res := ConsumeRemoteMedia(c, pid, replies(pid).ack, replies(pid).track);
      assert res.client.device == c.device && res.client.recvTransport == c.recvTransport;
      assert forall e :: e in list <==> e == list[0] || e in list[1..] by {
        assert list == [list[0]] + list[1..];
      }
      BackfillAllResolve(res.client, Consumed(streams, pid, res.outcome), list[1..], replies);
      assert ListedIds(list) == {pid} + ListedIds(list[1..]);
    }
  }

  /** When no listed consume resolves, the table is left as it was. */
  lemma {:induction false} BackfillNoneResolve(c: Client, streams: map<ObjId, TrackId>, list: seq<ProducerInfo>, replies: ObjId -> ConsumeReply)
    requires forall e :: e in list ==> !Resolves(c, e.producerId, replies)
    ensures Backfill(c, streams, list, replies).streams == streams
    decreases |list|
  {
    if list != [] {
      var pid := list[0].producerId;
      assert list[0] in list;
      var res := ConsumeRemoteMedia(c, pid, replies(pid).ack, replies(pid).track);
      assert res.client == c;
      assert forall e :: e in list[1..] ==> e in list;
      BackfillNoneResolve(c, streams, list[1..], replies);
    }
  }

  /** The line under the video grid. */
  datatype Status = Waiting | Connected(count: nat)

  /** "Waiting for others to join..." or "N participant(s) connected". */
  function StatusLine(streams: map<ObjId, TrackId>): (r: Status)
    ensures r.Waiting? <==> |streams.Keys| == 0
    ensures r.Connected? ==> r.count == |streams.Keys| > 0
  {
    if |streams.Keys| == 0 then Waiting else Connected(|streams.Keys|)
  }

  /** A producer announced by `new-producer` and listed again in the
      backfill, both consumed, is one participant: the count shown is the
      number of distinct producer ids. */
  lemma AnnouncedAndListedCountedOnce(streams: map<ObjId, TrackId>, pid: ObjId, outcome: ConsumeOutcome,
                                      c: Client, list: seq<ProducerInfo>, replies: ObjId -> ConsumeReply)
    requires outcome.Resolved?
    requires forall e :: e in list ==> Resolves(c, e.producerId, replies)
    ensures var after := Backfill(c, Consumed(streams, pid, outcome), list, replies).streams;
            StatusLine(after) == Connected(|streams.Keys + {pid} + ListedIds(list)|)
  {
    var s1 := Consumed(streams, pid, outcome);
    assert s1.Keys == streams.Keys + {pid};
    BackfillAllResolve(c, s1, list, replies);
  }

  /** The reference fold never drops an entry already in the table. */
  lemma {:induction false} StoredKeeps(c: Client, streams: map<ObjId, TrackId>, list: seq<ProducerInfo>, replies: ObjId -> ConsumeReply, k: ObjId)
    requires k in streams
    ensures k in Stored(c, streams, list, replies)
    decreases |list|
  {
    if list != [] {
      var pid := list[0].producerId;
      var next := if Resolves(c, pid, replies) then streams[pid := replies(pid).track.value] else streams;
      StoredKeeps(c, next, list[1..], replies, k);
    }
  }

  /** A producer announced by `new-producer` and consumed keeps its one entry
      through the backfill, whatever the listed consumes do: the table keeps
      every entry it had and gains at most the listed ids, so the count shown
      lies between the entries before the backfill and those plus the listed
      ids. */
  lemma AnnouncedKeptWhateverOutcomes(streams: map<ObjId, TrackId>, pid: ObjId, outcome: ConsumeOutcome,
                                      c: Client, list: seq<ProducerInfo>, replies: ObjId -> ConsumeReply)
    requires outcome.Resolved?
    ensures var after := Backfill(c, Consumed(streams, pid, outcome), list, replies).streams;
            && pid in after
            && streams.Keys + {pid} <= after.Keys <= streams.Keys + {pid} + ListedIds(list)
            && StatusLine(after) == Connected(|after.Keys|)
  {
    var s1 := Consumed(streams, pid, outcome);
    assert s1.Keys == streams.Keys + {pid};
    var n := StallAt(c, list, replies);
    BackfillStopsAtFirstHang(c, s1, list, replies);
    forall k | k in s1
      ensures k in Backfill(c, s1, list, replies).streams
    {
      StoredKeeps(c, s1, list[..n], replies, k);
    }
  }

  /** The call is running and its socket is open. */
  predicate Active(sess: Session) {
    sess.call.Some? && sess.call.value.open
  }

  /** A socket event for the open call, dispatched on how far `init` has
      come; an event whose listener is not registered yet is dropped. */
  function OnSocket(sess: Session, call: Call, input: Input): (r: Session)
    requires sess.call == Some(call) && call.open
    requires input.SocketConnected? || input.RouterCapabilities? || input.SendTransportCreated? ||
             input.RecvTransportCreated? || input.NewProducer? || input.ProducersList?
    ensures r.showMediaPrompt == sess.showMediaPrompt && r.call.Some? && r.call.value.open
    ensures |r.call.value.outbox| >= |call.outbox| && r.call.value.outbox[..|call.outbox|] == call.outbox
  {
    var c := call.client;
    match input
    case SocketConnected =>
      if call.phase != Connecting then sess
      else sess.(call := Some(call.(phase := AwaitCaps, outbox := call.outbox + [JoinRoom(sess.roomId), GetRouterRtpCapabilities])))
    case RouterCapabilities(loadOk) =>
      if call.phase != AwaitCaps then sess
      else if !loadOk then sess.(call := Some(call.(client := CreateDevice(c, false))))
      else sess.(call := Some(call.(client := CreateDevice(c, true), phase := AwaitSend,
                                    outbox := call.outbox + [CreateWebRtcTransport("send")])))
    case SendTransportCreated(id) =>
      if call.phase != AwaitSend then sess
      else sess.(call := Some(call.(client := c.(sendTransport := Some(id)), phase := AwaitRecv,
                                    outbox := call.outbox + [CreateWebRtcTransport("recv")])))
    case RecvTransportCreated(id, capture, produce) =>
      if call.phase != AwaitRecv then sess
      else
        var produced := ProduceLocalMedia(c.(recvTransport := Some(id)), capture, produce);
        if produced.stalled then sess.(call := Some(call.(client := produced.client, phase := Producing)))
        else sess.(call := Some(call.(client := produced.client, phase := Live, outbox := call.outbox + [GetProducers])))
    case NewProducer(pid, _, reply) =>
      if call.phase != Live then sess
      else
        var res := ConsumeRemoteMedia(c, pid, reply.ack, reply.track);
        var sent := if res.sent then [Consume(pid)] else [];
        sess.(call := Some(call.(client := res.client, outbox := call.outbox + sent)),
              remoteStreams := Consumed(sess.remoteStreams, pid, res.outcome))
    case ProducersList(list, replies) =>
      if call.phase == Connecting then sess
      else
        var b := Backfill(c, sess.remoteStreams, list, replies);
        sess.(call := Some(call.(client := b.client, outbox := call.outbox + b.sent)), remoteStreams := b.streams)
  }

  /** One input to the page. */
  function Step(sess: Session, input: Input): Reaction {
    match input
    case ToggleVideo => Rerun(sess, sess.(options := sess.options.(video := !sess.options.video)))
    case ToggleAudio => Rerun(sess, sess.(options := sess.options.(audio := !sess.options.audio)))
    case JoinMeeting =>
      if sess.showMediaPrompt then Reaction(RunEffect(sess.(showMediaPrompt := false)), []) else Reaction(sess, [])
    case LeaveCall =>
      var r := Release(sess);
      Reaction(r.session.(home := true), r.teardown)
    case Unmount => if sess.showMediaPrompt then Reaction(sess, []) else Release(sess)
    case _ =>
      if Active(sess) then Reaction(OnSocket(sess, sess.call.value, input), []) else Reaction(sess, [])
  }

  /** The page after a list of inputs, and every release performed. */
  function Run(sess: Session, inputs: seq<Input>): Reaction
    decreases |inputs|
  {
    if inputs == [] then Reaction(sess, [])
    else
      var r := Step(sess, inputs[0]);
      var rest := Run(r.session, inputs[1..]);
      Reaction(rest.session, r.teardown + rest.teardown)
  }

  /** While the media prompt is showing, whatever happens short of "Join
      Meeting" (including toggling the options), no client is created, no
      message is sent and nothing is released. */
  lemma {:induction false} PromptBlocksTheCall(sess: Session, inputs: seq<Input>)
    requires sess.showMediaPrompt && sess.call.None?
    requires forall i :: 0 <= i < |inputs| ==> inputs[i] != JoinMeeting
    ensures var r := Run(sess, inputs);
            && r.session.showMediaPrompt && r.session.call.None? && r.teardown == []
            && r.session.remoteStreams == sess.remoteStreams
    decreases |inputs|
  {
    if inputs != [] {
      var r := Step(sess, inputs[0]);
      assert inputs[0] != JoinMeeting;
      assert r.session.showMediaPrompt && r.session.call.None? && r.teardown == [];
      assert r.session.remoteStreams == sess.remoteStreams;
      PromptBlocksTheCall(r.session, inputs[1..]);
    }
  }

  /** In a socket's message log, every request for the receive transport
      comes after a request for the send transport. */
  predicate SendRequestedFirst(outbox: seq<Outgoing>) {
    forall j :: 0 <= j < |outbox| && outbox[j] == CreateWebRtcTransport("recv") ==>
      exists i :: 0 <= i < j && outbox[i] == CreateWebRtcTransport("send")
  }

  /** The invariant behind the transport-request order: once `init` is past
      the capabilities, the send transport has been requested. */
  predicate OrderedCall(call: Call) {
    && SendRequestedFirst(call.outbox)
    && (call.phase in {AwaitSend, AwaitRecv, Producing, Live} ==> CreateWebRtcTransport("send") in call.outbox)
  }

  predicate Ordered(sess: Session) {
    sess.call.Some? ==> OrderedCall(sess.call.value)
  }

  lemma AppendKeepsSendFirst(outbox: seq<Outgoing>, more: seq<Outgoing>)
    requires SendRequestedFirst(outbox)
    requires CreateWebRtcTransport("recv") in more ==> CreateWebRtcTransport("send") in outbox
    ensures SendRequestedFirst(outbox + more)
  {
    var all := outbox + more;
    forall j | 0 <= j < |all| && all[j] == CreateWebRtcTransport("recv")
      ensures exists i :: 0 <= i < j && all[i] == CreateWebRtcTransport("send")
    {
      if j < |outbox| {
        assert outbox[j] == all[j];
        var i :| 0 <= i < j && outbox[i] == CreateWebRtcTransport("send");
        assert all[i] == outbox[i];
      } else {
        assert more[j - |outbox|] == all[j];
        var i :| 0 <= i < |outbox| && outbox[i] == CreateWebRtcTransport("send");
        assert all[i] == outbox[i];
      }
    }
  }

  /** Consume messages never include a transport request. */
  lemma BackfillSendsOnlyConsumes(c: Client, streams: map<ObjId, TrackId>, list: seq<ProducerInfo>, replies: ObjId -> ConsumeReply)
    ensures forall m :: m in Backfill(c, streams, list, replies).sent ==> m.Consume?
    decreases |list|
  {
    if list != [] {
      var pid := list[0].producerId;
      var res := ConsumeRemoteMedia(c, pid, replies(pid).ack, replies(pid).track);
      if !res.outcome.Pending? {
        BackfillSendsOnlyConsumes(res.client, Consumed(streams, pid, res.outcome), list[1..], replies);
      }
    }
  }

  lemma StepKeepsOrdered(sess: Session, input: Input)
    requires Ordered(sess)
    ensures Ordered(Step(sess, input).session)
  {
    if Active(sess) && !(input.ToggleVideo? || input.ToggleAudio? || input.JoinMeeting? || input.LeaveCall? || input.Unmount?) {
      var call := sess.call.value;
      var r := OnSocket(sess, call, input);
      match input
      case SocketConnected =>
        if call.phase == Connecting {
          AppendKeepsSendFirst(call.outbox, [JoinRoom(sess.roomId), GetRouterRtpCapabilities]);
        }
      case RouterCapabilities(loadOk) =>
        if call.phase == AwaitCaps && loadOk {
          AppendKeepsSendFirst(call.outbox, [CreateWebRtcTransport("send")]);
        }
      case SendTransportCreated(_) =>
        if call.phase == AwaitSend {
          AppendKeepsSendFirst(call.outbox, [CreateWebRtcTransport("recv")]);
        }
      case RecvTransportCreated(_, _, _) =>
        if call.phase == AwaitRecv {
          AppendKeepsSendFirst(call.outbox, [GetProducers]);
          AppendKeepsSendFirst(call.outbox, []);
          assert call.outbox + [] == call.outbox;
        }
      case NewProducer(pid, _, reply) =>
        if call.phase == Live {
          var res := ConsumeRemoteMedia(call.client, pid, reply.ack, reply.track);
          AppendKeepsSendFirst(call.outbox, if res.sent then [Consume(pid)] else []);
        }
      case ProducersList(list, replies) =>
        if call.phase != Connecting {
          BackfillSendsOnlyConsumes(call.client, sess.remoteStreams, list, replies);
          AppendKeepsSendFirst(call.outbox, Backfill(call.client, sess.remoteStreams, list, replies).sent);
        }
    }
  }

  /** Whatever the events and their order, the page asks for the send
      transport before the receive transport, on every socket it opens. */
  lemma {:induction false} SendTransportRequestedFirst(sess: Session, inputs: seq<Input>)
    requires Ordered(sess)
    ensures var r := Run(sess, inputs).session;
            r.call.Some? ==> SendRequestedFirst(r.call.value.outbox)
    ensures Ordered(Run(sess, inputs).session)
    decreases |inputs|
  {
    if inputs != [] {
      StepKeepsOrdered(sess, inputs[0]);
      SendTransportRequestedFirst(Step(sess, inputs[0]).session, inputs[1..]);
    }
  }

  /** "Leave Call" and the effect cleanup release the same things: the
      teardown of the current client. Leaving also closes the call and
      records the navigation home. */
  lemma LeaveAndCleanupShareTeardown(sess: Session, call: Call)
    requires !sess.showMediaPrompt && sess.call == Some(call)
    ensures Step(sess, LeaveCall) == Reaction(sess.(call := Some(call.(open := false)), home := true), Teardown(call.client))
    ensures Step(sess, Unmount) == Reaction(sess.(call := Some(call.(open := false))), Teardown(call.client))
  {
    var rel := Release(sess);
    assert rel == Reaction(sess.(call := Some(call.(open := false))), Teardown(call.client));
    assert Step(sess, Unmount) == rel;
    assert Step(sess, LeaveCall) == Reaction(rel.session.(home := true), rel.teardown);
  }

  /** Leaving navigates away, which unmounts the page and runs the cleanup
      again on the same client, so the whole teardown happens twice; the
      socket, disconnected the first time, handles no further event. */
  lemma LeaveThenUnmountTearsDownTwice(sess: Session, call: Call)
    requires !sess.showMediaPrompt && sess.call == Some(call)
    ensures Step(sess, LeaveCall).teardown == Teardown(call.client)
    ensures Step(sess, Unmount).teardown == Teardown(call.client)
    ensures var r := Run(sess, [LeaveCall, Unmount]);
            && r.teardown == Teardown(call.client) + Teardown(call.client)
            && r.session.home && !Active(r.session)
    ensures var left := Step(sess, LeaveCall).session;
            forall pid, kind, reply :: Step(left, NewProducer(pid, kind, reply)) == Reaction(left, [])
  {
    LeaveAndCleanupShareTeardown(sess, call);
    var closed := call.(open := false);
    var left := sess.(call := Some(closed), home := true);
    LeaveAndCleanupShareTeardown(left, closed);
    assert closed.(open := false) == closed;
    var r2 := Step(left, Unmount);
    assert [LeaveCall, Unmount][1..] == [Unmount];
    assert [Unmount][1..] == [];
    var tail := Run(left, [Unmount]);
    assert tail == Reaction(r2.session, r2.teardown + []);
    assert Run(sess, [LeaveCall, Unmount]) == Reaction(tail.session, Teardown(call.client) + tail.teardown);
  }

  /** Every client the page holds keeps its consumer map keyed by consumer
      id. */
  ghost predicate Keyed(sess: Session) {
    sess.call.Some? ==> ConsumersKeyed(sess.call.value.client)
  }

  lemma {:induction false} BackfillKeepsKeyed(c: Client, streams: map<ObjId, TrackId>, list: seq<ProducerInfo>, replies: ObjId -> ConsumeReply)
    requires ConsumersKeyed(c)
    ensures ConsumersKeyed(Backfill(c, streams, list, replies).client)
    decreases |list|
  {
    if list != [] {
      var pid := list[0].producerId;
      var res := ConsumeRemoteMedia(c, pid, replies(pid).ack, replies(pid).track);
      ClientStepsKeepKeyed(c, None, _ => ProduceRejected, pid, replies(pid).ack, replies(pid).track, false);
      if !res.outcome.Pending? {
        BackfillKeepsKeyed(res.client, Consumed(streams, pid, res.outcome), list[1..], replies);
      }
    }
  }

  lemma StepKeepsKeyed(sess: Session, input: Input)
    requires Keyed(sess)
    ensures Keyed(Step(sess, input).session)
  {
    NewClientKeyed(sess.roomId, false);
    if Active(sess) && !(input.ToggleVideo? || input.ToggleAudio? || input.JoinMeeting? || input.LeaveCall? || input.Unmount?) {
      var call := sess.call.value;
      var c := call.client;
      match input
      case RouterCapabilities(loadOk) =>
        ClientStepsKeepKeyed(c, None, _ => ProduceRejected, 0, None, None, loadOk);
      case SendTransportCreated(id) =>
        assert ConsumersKeyed(c.(sendTransport := Some(id)));
      case RecvTransportCreated(id, capture, produce) =>
        assert ConsumersKeyed(c.(recvTransport := Some(id)));
        ClientStepsKeepKeyed(c.(recvTransport := Some(id)), capture, produce, 0, None, None, false);
      case NewProducer(pid, _, reply) =>
        ClientStepsKeepKeyed(c, None, _ => ProduceRejected, pid, reply.ack, reply.track, false);
      case ProducersList(list, replies) =>
        BackfillKeepsKeyed(c, sess.remoteStreams, list, replies);
      case SocketConnected =>
    }
  }

  /** From the first render, and over any inputs, every client the page
      holds stores each consumer under that consumer's id. */
  lemma {:induction false} RunKeepsConsumersKeyed(sess: Session, inputs: seq<Input>)
    requires Keyed(sess)
    ensures Keyed(Run(sess, inputs).session)
    decreases |inputs|
  {
    if inputs != [] {
      StepKeepsKeyed(sess, inputs[0]);
      RunKeepsConsumersKeyed(Step(sess, inputs[0]).session, inputs[1..]);
    }
  }
}
