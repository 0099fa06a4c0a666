# Signalling bookkeeping of a mediasoup SFU video call

This project models the signalling core of a small selective-forwarding video
call app. There are two sides.

- **The server** (`server/server.js`) keeps one peer record per connected
  socket, in a table keyed by socket id. A record lists the peer's transports,
  producers and consumers. Socket messages create and close these objects
  through the media engine and relay announcements to the other sockets.
- **The page** (`client/src/components/mediasoupClient.js` and `VideoCall.js`)
  does three things. It drives one client through the start-up chain: router
  capabilities, then the send transport, then the receive transport, then local
  media, then the backfill of existing producers. It keeps the `remoteStreams`
  table of consumed tracks. On cleanup or "Leave Call" it tears down its producers, transports, socket and local tracks, but not its consumers.

The model follows the code, including where the code departs from the protocol
the app was designed around:

- The server registers no `joinRoom` listener, and the page connects without a
  `roomId` query. So every record's room is empty, and a room never reaches the
  server.
- Announcements (`new-producer`, `peer-disconnected`) and the `getProducers`
  reply cover every other connected socket. They are not limited to one room.
- The server's `consume` handler takes no acknowledgement callback. So the
  page's `consumeRemoteMedia` promise never settles, and the backfill loop
  waits forever on its first producer.
- `connectTransport` has no guard against connecting twice. `produce` ignores
  the transport id it is sent and always uses `transports[0]`. `consume` always
  uses `transports[1]`.
- The page's `produce` listener calls back only from the server's
  acknowledgement, and the server acknowledges only a producer it created.
  When the server fails to create one, `produceLocalMedia` never returns, so
  the page never listens for `new-producer` and never asks for the existing
  producers.
- After `exitRoom` the socket stays connected. A later `createWebRtcTransport`
  creates an engine transport that no record holds and nothing closes.

## Structure

- `types.dfy` (module `Types`): socket ids, engine object ids, `Option`,
  media `Kind`, and the `NoDup` predicate.
- `server.dfy` (module `Server`): the peer table and one function per socket
  handler. Each handler returns an `Outcome`: the new table, the events sent,
  the acknowledgement, and the engine objects closed, connected or leaked.
  `Step` dispatches one message and `Run` replays a sequence of messages.
- `server_props.dfy` (module `ServerProps`): the table invariant `Valid`, and
  lemmas about whole runs of the server.
- `media_client.dfy` (module `MediaClient`): the page's client object, with
  its producers keyed by kind and its consumers keyed by id.
- `video_call.dfy` (module `VideoCall`): the component's state, the effect
  and its guard, the start-up chain as a phase machine, `remoteStreams`, and
  the teardown sequence.
- `protocol.dfy` (module `Protocol`): what the server makes of each message
  the page sends.

These are inputs to the model rather than things it computes:

- Media engine results. Each server step takes an `Engine` verdict: whether
  the engine call succeeds, and whether the router's codec check
  (`canConsume`) accepts. Fresh engine object ids come from a counter in the
  table.
- `getUserMedia`. It is a parameter: the captured tracks, or a failure.
- How each `sendTransport.produce` settles: with a producer id, by rejecting, or never.
- The consumer a resolved `consume` yields. It is given with the reply.

## Model

| member | source | states |
|---|---|---|
| Server.OnConnection | server/server.js:38-48 | A connection adds a fresh record for the socket, with no transports, producers or consumers and with the handshake's room. It appends the socket to the iteration order if it is new, and keeps its place otherwise. The objects of a record it overwrites are reported leaked, not closed. Every other record is unchanged and nothing is sent. |
| Server.RemovePeer | server/server.js:50-61 | With no record for the socket, nothing happens. Otherwise the handler closes exactly the record's transports, producers and consumers, removes only that key, and sends one `peer-disconnected` naming the socket to every other connected socket. |
| Server.OnCreateWebRtcTransport | server/server.js:70-97 | When the engine succeeds and the record exists, the new transport goes at the end of the record's transports, and the event sent only to the caller is the send variant exactly when `direction` is `"send"`. When the engine fails, nothing happens. When the record is missing, the created transport is reported as leaked. |
| Server.OnConnectTransport | server/server.js:99-104 | The handler connects the transport exactly when it is one of the caller's own transports. The table never changes and nothing is sent. |
| Server.OnProduce | server/server.js:106-119 | With a record, a send transport and engine success, a producer with a fresh id and the requested kind is created on `transports[0]`. It is appended to the caller's producers and announced to every other socket, and the caller is acknowledged with its id. Otherwise nothing changes, nothing is sent and there is no acknowledgement. |
| Server.OtherProducers | server/server.js:121-133 | The collected list holds exactly the producers of every record other than the caller's, whatever the room. |
| Server.FindProducer | server/server.js:137 | The producer lookup behind `canConsume` finds a producer exactly when some live record holds a producer with that id. |
| Server.OnConsume | server/server.js:135-163 | A consumer is created only when `canConsume` accepts, the caller has a receive transport and the engine succeeds. It is then placed on `transports[1]` with the producer's kind and announced to the caller alone. There is never an acknowledgement. On every failure path the table is unchanged and nothing is sent. |
| ServerProps.StepKeepsValid | server/server.js:38-163 | Every handler keeps the table invariant: object ids are distinct and already allocated, records share no object, producers sit on the record's first transport and consumers on its second. |
| ServerProps.InitialValid | server/server.js:17 | The server as it starts, with an empty peer table, no sockets and no ids handed out, meets the table invariant. |
| ServerProps.RunKeepsValid | server/server.js:38-164 | Any sequence of messages keeps the table invariant. |
| ServerProps.GetProducersReply | server/server.js:121-133 | `getProducers` changes nothing, whatever the engine verdicts. It replies to the caller alone, listing a producer exactly when another record holds it, and never one of the caller's own producers. |
| ServerProps.NoticeAtMostOncePerConnection | server/server.js:50-64 | Because `disconnect` and `exitRoom` share one removal, a socket is announced as gone at most once per record it had, in any sequence of messages. |
| ServerProps.RunKeepsRetired | server/server.js:50-61 | Once an object id is held by no record and is below the allocation counter, no later message puts it back in any record. |
| ServerProps.LeftProducerNeverListed | server/server.js:121-133 | After a socket's record is removed, and after any further messages, no `getProducers` reply to anybody lists one of that socket's producers. |
| ServerProps.ConsumeOfLeftProducerIsSilent | server/server.js:135-162 | After a socket's record is removed, and after any further messages, a `consume` of one of its producers creates nothing, sends nothing and leaves the table unchanged. |
| ServerProps.DirectionOnlyNamesTheEvent | server/server.js:81-90 | Two transport requests that differ only in `direction` change the server identically. The direction only picks which event name the caller receives. |
| ServerProps.ProduceIgnoresTransportId | server/server.js:106-108 | The transport id a `produce` message carries has no effect on the outcome. |
| ServerProps.ConnectTransportRepeats | server/server.js:99-104 | Repeating `connectTransport` for one of the caller's transports connects it again, and the table stays unchanged. |
| ServerProps.TransportAfterExitIsLeaked | server/server.js:70-97 | After `exitRoom`, a successful transport request creates a transport that is leaked. Nothing is sent or closed, and no record holds the transport then or after any further messages. |
| MediaClient.NewClient | client/src/components/mediasoupClient.js:5-14 | A new client has the room it was given. It has no device, no transports, no producers, no consumers and no local stream. |
| MediaClient.ProduceTracks | client/src/components/mediasoupClient.js:35-49 | The producer map after the loop is the replay of the close and create actions it performed. Every close closes the live producer of its kind, and every create finds its kind free. Every producer it creates is the one `produce` resolved to for a captured track of that kind. |
| MediaClient.ProduceTracksOk | client/src/components/mediasoupClient.js:35-49 | The loop completes exactly when the engine produces every track. |
| MediaClient.ProduceTracksUntouched | client/src/components/mediasoupClient.js:35-49 | A kind none of the tracks has keeps its previous producer. |
| MediaClient.ProduceTracksStall | client/src/components/mediasoupClient.js:35-49 | The loop is left waiting exactly when there is a send transport and it reaches a track whose `produce` never settles, every earlier track having been produced. It then never completes. |
| MediaClient.ProduceTracksFresh | client/src/components/mediasoupClient.js:35-49 | When the loop completes, every track's kind maps to a producer this call created, and each created producer is one `produce` resolved to for a track of that kind. |
| MediaClient.ProduceTracksLast | client/src/components/mediasoupClient.js:35-49 | When the loop completes, each kind maps to exactly the producer that `produce` resolved to for the last captured track of that kind. |
| MediaClient.ProduceLocalMedia | client/src/components/mediasoupClient.js:30-54 | If capture fails, the client is unchanged and the call fails. Otherwise the stream is stored as the local stream first. The producers then follow the track loop, with the same replacement discipline, untouched kinds and fresh producers. Every created producer comes from `produce`'s reply for a track of its kind, and on success each kind holds the reply for its last track. The call succeeds exactly when every track is produced. It never settles exactly when the loop reaches a `produce` that never settles. |
| MediaClient.NewClientKeyed | client/src/components/mediasoupClient.js:5-28 | A new client's consumer map, empty, stores every consumer under that consumer's id, and creating the device keeps this. |
| MediaClient.ClientStepsKeepKeyed | client/src/components/mediasoupClient.js:25-82 | Creating the device, producing local media and consuming remote media all keep every consumer stored under its own id. |
| MediaClient.ConsumeRemoteMedia | client/src/components/mediasoupClient.js:56-82 | With no device, or a device that failed to load the router's capabilities, the call rejects before sending. With no acknowledgement it stays pending with the client unchanged. With no receive transport, or when the engine refuses, it rejects. Otherwise it resolves, storing the consumer under its id and leaving every other consumer as it was. |
| VideoCall.RunEffect | client/src/components/VideoCall.js:15-22 | While the media prompt is showing, the effect does nothing. Otherwise it installs a new client for the room, still connecting and with nothing sent, and changes nothing else. |
| VideoCall.PromptBlocksTheCall | client/src/components/VideoCall.js:15-16 | Whatever inputs arrive short of "Join Meeting", including toggling the options, no client is created, nothing is released and `remoteStreams` is unchanged. |
| VideoCall.Teardown | client/src/components/VideoCall.js:132-142 | The cleanup first closes all producers. It then closes a transport exactly when it is the send or receive transport, and disconnects the socket after every close. Finally it stops exactly the local stream's tracks. |
| VideoCall.LeaveAndCleanupShareTeardown | client/src/components/VideoCall.js:132-157 | Once the prompt is dismissed and a client exists, "Leave Call" and the effect cleanup both mark the call closed and release exactly `Teardown` of the current client; only "Leave Call" also navigates home. |
| VideoCall.LeaveThenUnmountTearsDownTwice | client/src/components/VideoCall.js:132-157 | "Leave Call" and the effect cleanup each release exactly the teardown of the current client. Leaving and then unmounting performs that teardown twice and ends on the home page with the socket closed. A `new-producer` after leaving is ignored. |
| VideoCall.Consumed | client/src/components/VideoCall.js:88-101 | A resolved consume stores its track under the producer id and keeps every other entry. A pending or rejected consume leaves `remoteStreams` unchanged. |
| VideoCall.Backfill | client/src/components/VideoCall.js:111-124 | The backfill only adds entries for listed producers and leaves every unlisted entry as it was. |
| VideoCall.BackfillStallsIffHang | client/src/components/VideoCall.js:111-124 | For any mix of outcomes, the loop stalls exactly when some listed consume never settles (the reference `StallAt` index is inside the list). |
| VideoCall.BackfillStopsAtFirstHang | client/src/components/VideoCall.js:111-124 | For any mix of outcomes, the table the loop leaves equals a reference fold over the entries before the first consume that never settles: each resolved consume stores its track under its producer id, and a rejected one is skipped. |
| VideoCall.BackfillSendsInOrder | client/src/components/VideoCall.js:111-124 | The loop sends one `consume` per entry it reaches, in list order: up to and including the first that never settles, or every entry. It sends none when the device is not loaded. |
| VideoCall.BackfillAllResolve | client/src/components/VideoCall.js:111-124 | When every listed consume resolves, the backfill completes and `remoteStreams` gains exactly the listed producer ids. |
| VideoCall.BackfillNoneResolve | client/src/components/VideoCall.js:111-124 | When no listed consume resolves, `remoteStreams` is unchanged. |
| VideoCall.StatusLine | client/src/components/VideoCall.js:228-232 | The status reads "waiting" exactly when `remoteStreams` is empty. Otherwise it counts its keys. |
| VideoCall.AnnouncedAndListedCountedOnce | client/src/components/VideoCall.js:94-119 | When every listed consume resolves, a producer that is both announced and listed in the backfill is counted once: the count is the number of distinct producer ids. |
| VideoCall.AnnouncedKeptWhateverOutcomes | client/src/components/VideoCall.js:94-124 | Whatever each listed consume does, an announced and consumed producer keeps its single entry through the backfill. The table keeps every earlier entry and gains at most the listed ids, and the count is its number of keys. |
| VideoCall.OnSocket | client/src/components/VideoCall.js:18-128 | A socket event for the running call only appends to the socket's message log, never touches the prompt, and keeps the call open. |
| VideoCall.RunKeepsConsumersKeyed | client/src/components/VideoCall.js:18-128 | Over any inputs, every client the page holds stores each consumer under that consumer's own id. |
| VideoCall.SendTransportRequestedFirst | client/src/components/VideoCall.js:24-63 | In every run of inputs, on every socket the page opens, a request for the receive transport is preceded by a request for the send transport. |
| Protocol.RoomNeverReachesServer | server/server.js:38-48 | The page's connection gives its record no room. The page's `joinRoom` changes nothing on the server and sends nothing back. |
| Protocol.PageTransportsMatchServerIndices | server/server.js:70-119 | The page's send request and then its receive request give the server transports `[n, n+1]`, announced as send and receive respectively. A following `produce` creates its producer on the send transport `n`. |
| Protocol.ConsumeNeverSettles | client/src/components/mediasoupClient.js:56-82 | The server's `consume` sends no acknowledgement. With none, the page's consume stays pending and stores no consumer. |
| Protocol.ServerProduceFailureStallsThePage | client/src/components/VideoCall.js:42-103 | When the server fails to create the producer for the page's first track, it sends no acknowledgement. The page then waits forever in `produceLocalMedia`: it sends nothing more, never asks for the existing producers, and ignores every `new-producer`. |
| Protocol.BackfillStallsOnFirstProducer | client/src/components/VideoCall.js:111-124 | Against this server, a non-empty backfill sends exactly one `consume`, waits forever and adds no stream. |

## Left out

- The HTTP server, CORS, socket.io transport, port and `listen` are left out, along with the engine worker and router bootstrap (`server/server.js:1-36`, `server/mediasoup-config.js`). The router is taken to exist. The `getRouterRtpCapabilities` reply before the router exists is not modelled.
- Engine internals (ICE, DTLS, RTP parameters, codec matching) are left out. The router's codec check is the `capsOk` verdict, and engine success is the `ok` verdict.
- Interleaving of concurrent handlers across `await` points is left out. Each handler runs atomically. In particular, the window where a disconnect lands while `router.createWebRtcTransport` is pending is not modelled. Only the `exitRoom`-then-request path shows the leak.
- Console output is left out. On the server, a caught and logged failure of `createWebRtcTransport` or `consume` becomes "nothing changes", except that a transport created for a socket with no record is reported leaked and its id is used up. On the page, a caught failure still has effects, and the model keeps them. A failed `createDevice` (caught at `VideoCall.js:106-108`) leaves the unloaded device on the client, and nothing more is sent. A failed `produceLocalMedia` (caught at `VideoCall.js:84-86`) is logged, and the page still listens for `new-producer` and sends `getProducers`. A failed consume leaves `remoteStreams` as it was.
- VideoCall.OnSocket: creating the send and receive transports always succeeds in the model. In the code, a throwing `createSendTransport` or `createRecvTransport` (`VideoCall.js:30-31`, `65-66`) runs in an async socket listener outside any `try`, so it is an unhandled promise rejection that leaves the page where it was. The model does not represent that failure.
- Server.OnProduce: on a failure the model changes nothing. The handler has no `try`/`catch`. A missing record (reachable after `exitRoom`), a missing `transports[0]` or an engine rejection ends in an unhandled promise rejection. On Node's default since version 15, that ends the server process and every record with it. Process exit is not modelled.
- Server.OnConnectTransport: likewise, the model changes nothing when the record is missing or `connect` rejects. In the code this is an unhandled promise rejection, as for `produce`.
- The mediasoup-client transport `connect` listeners (`VideoCall.js:33-39`, `68-74`) are left out, because they are driven by the client-side engine. The server's `connectTransport` handler is modelled on its own. The `produce` listener (`VideoCall.js:42-59`) is modelled only by how it settles: with the server's acknowledgement, or never (`Protocol.PageProduceReply`).
- React rendering and the `<video>` elements are left out. Navigation is the `home` flag of the session. "Leave Call" is modelled as the teardown followed by setting `home`. A later unmount of the same client is a separate `Unmount` input, so the double teardown is visible.
- Repeated socket events registering duplicate listeners are left out. The page model handles each start-up event once, in the phase that registered its listener, and drops it otherwise.
- The order in which `Object.values` visits the producers during teardown is left out. All producer closes are one action on the set of producer ids.
- The page registers no `peer-disconnected` listener and its teardown closes no consumer. The model has neither, faithfully: `remoteStreams` entries are never removed.
- VideoCall.OnSocket: its contract states only that the message log grows and the prompt is untouched. The per-event behaviour is stated by the lemmas about its parts (`ProduceLocalMedia`, `ConsumeRemoteMedia`, `Consumed`, `BackfillStallsIffHang`, `BackfillStopsAtFirstHang`) and by `SendTransportRequestedFirst`, `RunKeepsConsumersKeyed` and `Protocol.ServerProduceFailureStallsThePage`.
- Server.FindProducer: models only the producer-existence half of `router.canConsume`. The codec half is the `capsOk` verdict.
