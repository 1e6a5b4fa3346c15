# multimeet: a Dafny model of the signalling server and the meeting-room client state

multimeet is a video-meeting application. A Node server keeps the meetings
("rooms"), the participants of each ("peers") and their media transports,
and answers the socket.io messages of the browsers. A React client folds
server events into a room state and lays out the participants' video tiles.
This project models the core of both sides and proves what each operation
promises.

Server side:

- `ServerPeer` (server/src/utils/Peer.ts) is the class `Peer`. Its three
  JavaScript Maps of transports, consumers and producers become `map` fields
  that the add/del methods reassign.
- `ServerRoom` (server/src/utils/Room.ts) is the class `Room`. It holds the
  peers by connection id, the worker and router it was created with, and the
  socket it currently serves.
- `ServerRoomSocket` (server/src/sockets/room.socket.ts) is the class
  `RoomSocket`. It holds the room registry, the worker pool and the
  round-robin index that the connection handlers share. Each handler is a
  method that returns its acknowledgement and the events it emits.
- `Mediasoup` and `SocketIo` hold the ids and opaque parameter blobs of the
  media engine and the socket layer.
- What the media engine answers (a created transport, a produced producer,
  an error) is a parameter of the method that calls it. The engine calls a
  method makes are returned as a sequence of `EngineCall`s.

Client side:

- `RoomProvider` (client/src/providers/RoomProvider.tsx) is the reducer as
  a pure function of state and action.
- `StringUtils` (client/src/utils/string.utils.ts) is the meeting-id
  generator: a loop method proved against a recursive definition. The
  random indices are a parameter.
- `UseStepper` (client/src/hooks/useStepper.ts) is the step counter, a
  class with a `step` field.
- `MeetingVideoGrid` (client/src/features/meeting/MeetingVideoGrid.tsx)
  covers four things:
  - the tiles, and which consumers are attributed to each;
  - which producer or consumer feeds a tile;
  - pagination, ten tiles to a page;
  - the rows and columns of the grid.

`Wrappers` gives `Option` and `Result`. `Seqs` gives JavaScript's `find`,
`findIndex` and `filter` on sequences, with their laws: the first match,
membership, multiplicities, order as a subsequence, and distinct keys.

On the client a peer's `id` is optional (`id?: string` in
client/src/types/room.type.ts), so it is an `Option<string>`, and the
comparisons of the reducer and the grid treat `undefined` as a value.

The model follows the code as it is written, except for the Room methods
that room.socket.ts calls but Room.ts does not define (see "Missing Room
methods" below and "## Left out"). These behaviours are included:

- **Undefined transport key.** `Room.createWebRtcTransport` hands
  `Peer.addTransport` the wrapper object `{transport, sender}`. Peer.ts keys
  its Map by `.id`, and the wrapper has no `id`, so every new transport of a
  peer lands under the key `undefined` and replaces the previous one
  (`JsKey.Undefined`). Lemma `OnlyUndefinedKeyReachesTransport` proves the
  consequence for `Room.connectSendWebRtcTransport` and
  `Room.createPeerProducer`: called with a string transport id, neither
  reaches a media transport. No handler of room.socket.ts calls these two
  methods; the handlers call `connectWebRtcTransport` and `createProducer`,
  which Room.ts does not define.
- **Undefined return value.** The same method returns the outer `transport`
  variable. The inner `const transport` shadows it, so the method resolves
  to `undefined`, and the `createWebRtcTransport` acknowledgement carries no
  fields.
- **Missing Room methods.** room.socket.ts calls Room methods that Room.ts
  does not define:
  - `connectWebRtcTransport`, `createProducer`, `closeProducer`,
    `pauseProducer` and `resumeProducer`;
  - `createPeerConsumer`, `getPeerProducers`, `resumeConsumer` and
    `sendPeerAction`.

  As written, `room?.m(...)` guards `room`, not the method, so each of these
  calls throws a `TypeError` after `room.socket = socket`, and nothing after
  it runs. The model instead treats each method as present: the handler
  records the call as a `RoomCall` handed to the room, and what the call
  resolves to is a parameter. The consumer and
  pause/close behaviour described for these operations elsewhere is not in
  Room.ts, so it is not modelled.
- **Empty worker pool.** When `room:create` runs with no workers, the picked
  worker is `undefined` and the Room constructor throws. No room is
  registered, but the round-robin index has already moved.

## Model

| member | source | states |
|---|---|---|
| ServerPeer.TransportValue.Id | server/src/utils/Peer.ts:57-59 | the Map key of a stored value is `value.id`: a string exactly for a transport object, `undefined` for the `{transport, sender}` wrapper |
| ServerPeer.TransportValue.TransportProperty | server/src/utils/Room.ts:86-90 | `value.transport` is present exactly for the wrapper object |
| ServerPeer.Peer.constructor | server/src/utils/Peer.ts:30-47 | the peer's id is the socket id, its three Maps start empty, and its info snapshot is the submitted peer info with the id replaced by the socket id |
| ServerPeer.Peer.GetTransport | server/src/utils/Peer.ts:49-51 | found iff the key is in the Map, and then it is that entry, stored under its own id |
| ServerPeer.Peer.DelTransport | server/src/utils/Peer.ts:53-55 | removes exactly that key (an absent key is a no-op) and leaves consumers, producers and info unchanged |
| ServerPeer.Peer.AddTransport | server/src/utils/Peer.ts:57-59 | stores the value under its `id`, replacing an equal key (the size grows by one only for a new key); nothing else changes |
| ServerPeer.Peer.GetConsumer | server/src/utils/Peer.ts:61-63 | found iff present, then the stored consumer, whose id is the key |
| ServerPeer.Peer.DelConsumer | server/src/utils/Peer.ts:65-67 | removes exactly that key; transports, producers and info unchanged |
| ServerPeer.Peer.AddConsumer | server/src/utils/Peer.ts:69-71 | stores under `consumer.id`, last write wins, size law; nothing else changes |
| ServerPeer.Peer.GetProducer | server/src/utils/Peer.ts:73-75 | found iff present, then the stored producer, whose id is the key |
| ServerPeer.Peer.DelProducer | server/src/utils/Peer.ts:77-79 | removes exactly that key; transports, consumers and info unchanged |
| ServerPeer.Peer.AddProducer | server/src/utils/Peer.ts:81-83 | stores under `producer.id`, last write wins, size law; nothing else changes |
| ServerPeer.Peer.GetPeerInfo | server/src/utils/Peer.ts:85-99 | the snapshot carries the peer's own id; with the constructor it round-trips the submitted info |
| ServerRoom.Room.constructor | server/src/utils/Room.ts:30-43 | the room keeps its id, socket, the picked worker and its router, and starts with no peers |
| ServerRoom.Room.GetPeer | server/src/utils/Room.ts:112-114 | found iff a peer is stored under that socket id, and then it is that peer |
| ServerRoom.Room.AddPeer | server/src/utils/Room.ts:116-118 | stores the peer under its own id with no uniqueness check (a colliding id replaces the earlier peer) and keeps the room invariant |
| ServerRoom.Room.GetRouterRtpCapabilities | server/src/utils/Room.ts:107-110 | returns the router's capabilities as they are |
| ServerRoom.Room.CurrentTransport | server/src/utils/Room.ts:85-90 | `peer?.getTransport(id)?.transport` is present iff the current socket's peer stores a wrapper under that key, and then it is the wrapped transport |
| ServerRoom.Room.OnlyUndefinedKeyReachesTransport | server/src/utils/Room.ts:61-62 | since the wrapper is stored under `undefined`, no string transport id reaches a media transport |
| ServerRoom.Room.CreateWebRtcTransport | server/src/utils/Room.ts:46-79 | a router error is rethrown and changes nothing; otherwise the current peer's transports gain `{transport, sender}` under `undefined`, no other peer or Map changes, and the result is `undefined` |
| ServerRoom.Room.ConnectSendWebRtcTransport | server/src/utils/Room.ts:81-91 | with no wrapped transport under that key nothing is called and it resolves; otherwise exactly one `connect` with the given DTLS parameters, and its outcome is returned |
| ServerRoom.Room.CreatePeerProducer | server/src/utils/Room.ts:93-105 | with no wrapped transport it resolves to `undefined` with no call; otherwise exactly one `produce` with the given options, and its producer or error is returned |
| ServerRoom.OnDtlsStateChange | server/src/utils/Room.ts:64-68 | the transport is closed exactly when the DTLS state becomes `closed` |
| ServerRoomSocket.NextWorkerIdx | server/src/sockets/room.socket.ts:36-37 | the pre-incremented index is reset to 0 at the pool length, so it stays below the length |
| ServerRoomSocket.PickIndices | server/src/sockets/room.socket.ts:33-40 | `k` consecutive picks read `k` indices |
| ServerRoomSocket.PicksUpToEnd | server/src/sockets/room.socket.ts:33-40 | picks from `idx` to the end of the pool are consecutive, and the last one wraps the index to 0 |
| ServerRoomSocket.RoundRobinRotation | server/src/sockets/room.socket.ts:33-40 | any pool-length run of picks from a valid index reads `idx..len-1` then `0..idx-1` and returns the index to `idx` |
| ServerRoomSocket.RoundRobinExactlyOnce | server/src/sockets/room.socket.ts:33-40 | in any pool-length run of picks every worker is picked exactly once |
| ServerRoomSocket.TransportAckOf | server/src/sockets/room.socket.ts:123-128 | `id`, `iceParameters`, `iceCandidates` and `dtlsParameters` are each that field of the transport, and all four are absent for an undefined transport |
| ServerRoomSocket.ConsumerAckOf | server/src/sockets/room.socket.ts:199-207 | `producerId` echoes the request; `id`, `kind` and `rtpParameters` are the consumer's, all absent without a consumer; `serverConsumerId` repeats `id` |
| ServerRoomSocket.RoomSocket.constructor | server/src/sockets/room.socket.ts:20-30 | an empty registry, index 0, over the pool started before any connection |
| ServerRoomSocket.RoomSocket.WorkerAt | server/src/sockets/room.socket.ts:34 | `mediasoupWorkers[idx]` is defined iff the index is in range |
| ServerRoomSocket.RoomSocket.CurrentRoom | server/src/sockets/room.socket.ts:112-113 | `rooms.get(socket.data?.roomId)`: present iff the socket records a registered room id |
| ServerRoomSocket.RoomSocket.GetMediasoupWorker | server/src/sockets/room.socket.ts:33-40 | returns the worker at the index and advances it with wrap-around; a non-empty pool always yields a worker |
| ServerRoomSocket.RoomSocket.RoomCreate | server/src/sockets/room.socket.ts:45-54 | an existing id changes nothing; otherwise the index advances once and a fresh, empty room on the picked worker's router is registered under the id, unless the pool is empty |
| ServerRoomSocket.RoomSocket.RoomJoin | server/src/sockets/room.socket.ts:56-83 | records the room id on the socket; unknown room: the error acknowledgement and no event; else the room serves this socket, gains a fresh peer under the socket id whose info is the submitted info with the socket id, the others in the room are told, and the acknowledgement carries that info; other rooms do not change |
| ServerRoomSocket.RoomSocket.EnterRoom | server/src/sockets/room.socket.ts:136-138 | the guard of the in-room handlers: no room, no effect; otherwise only that room's `socket` changes |
| ServerRoomSocket.RoomSocket.Delegate | server/src/sockets/room.socket.ts:133-244 | the handlers `connectWebRtcTransport` (133-141), `closeProducer`, `pauseProducer`, `resumeProducer` (164-183), `resumeConsumer` and `sendPeerAction` (225-244): the call is handed to the current room, which now serves this socket, or dropped without a room; no peers change |
| ServerRoomSocket.RoomSocket.GetRouterRtpCapabilitiesHandler | server/src/sockets/room.socket.ts:85-105 | no room: no acknowledgement; else the room serves this socket and the acknowledgement is its router's capabilities; no other room's socket changes |
| ServerRoomSocket.RoomSocket.CreateWebRtcTransportHandler | server/src/sockets/room.socket.ts:109-131 | no room: no acknowledgement and no socket changes; a router error: no acknowledgement and no transport stored; else the found room serves this socket, its current peer gains the wrapped transport under `undefined` (every other peer and Map as before), and the acknowledgement has every field absent; other rooms keep their socket; the registry invariant is kept |
| ServerRoomSocket.RoomSocket.ServeCreateWebRtcTransport | server/src/sockets/room.socket.ts:114-120 | once the room is found it serves this socket, and then the transport is created with the requested roles: the same result and stored transport as `Room.createWebRtcTransport` |
| ServerRoomSocket.RoomSocket.RoomsStayValid | server/src/sockets/room.socket.ts:109-131 | changing only the peers of one registered room keeps the registry invariant |
| ServerRoomSocket.RoomSocket.CreateProducerHandler | server/src/sockets/room.socket.ts:146-162 | no room: nothing and no socket changes; else the room serves this socket, `createProducer` is handed to it and the acknowledgement is `{id: producer?.id}`; no peers and no other room's socket change |
| ServerRoomSocket.RoomSocket.CreateConsumerHandler | server/src/sockets/room.socket.ts:185-209 | no room: nothing and no socket changes; else the room serves this socket, `createPeerConsumer` is handed to it and the acknowledgement echoes the producer id and repeats the consumer id; no peers and no other room's socket change |
| ServerRoomSocket.RoomSocket.GetProducersHandler | server/src/sockets/room.socket.ts:211-223 | no room: nothing and no socket changes; else the room serves this socket and the resolved producers are pushed to the requesting socket only; no peers and no other room's socket change |
| ServerRoomSocket.RoomSocket.Disconnect | server/src/sockets/room.socket.ts:246-248 | no room, peer or socket state changes |
| Seqs.FindIndex | client/src/providers/RoomProvider.tsx:28-30 | `findIndex`: -1 iff no element matches, otherwise the first index that does |
| Seqs.Find | client/src/providers/RoomProvider.tsx:98-100 | `find`: absent iff no element matches, otherwise the element at the first index that does |
| Seqs.Filter | client/src/providers/RoomProvider.tsx:55-58 | `filter` keeps exactly the elements satisfying the predicate and is no longer than its input |
| Seqs.FilterLaws | client/src/providers/RoomProvider.tsx:55-58 | `filter` keeps every satisfying element with its multiplicity and drops every other, keeps the order (a subsequence), and is the identity when every element satisfies the predicate |
| RoomProvider.OwnerOf | client/src/providers/RoomProvider.tsx:110 | `consumer?.appData.peerId` is defined exactly when a consumer was found, and then is its peer id |
| RoomProvider.RemovingActions | client/src/providers/RoomProvider.tsx:54-125 | REMOVE_PRODUCER and REMOVE_PEER filter only their one field, and REMOVE_CONSUMER is the consumer-and-peer removal |
| RoomProvider.WithoutPeerKeepsIdsUnique | client/src/providers/RoomProvider.tsx:122-124 | removing peers by id keeps distinct peer ids distinct |
| RoomProvider.AddProducerAndConsumerCases | client/src/providers/RoomProvider.tsx:24-25 | ADD_PRODUCER appends the producer (ADD_CONSUMER at lines 94-95 the consumer) and changes no other field |
| RoomProvider.UpdatePeerCase | client/src/providers/RoomProvider.tsx:26-52 | only the first peer with the id changes, only in the flag its action type selects; an unknown id changes nothing |
| RoomProvider.SetPeerFlagChangesOneFlag | client/src/providers/RoomProvider.tsx:33-49 | each action type sets its one flag and no other field; an unknown type changes nothing |
| RoomProvider.RemoveProducerCase | client/src/providers/RoomProvider.tsx:54-60 | REMOVE_PRODUCER drops exactly the producers with that id, keeps every other with its multiplicity and in order, and changes nothing else |
| RoomProvider.PauseResumeProducerCase | client/src/providers/RoomProvider.tsx:62-92 | PAUSE/RESUME_PRODUCER set the auth peer's video or audio flag to false/true by the media type of the first producer with that id; without an auth peer or such a producer the state is unchanged |
| RoomProvider.RemoveConsumerCase | client/src/providers/RoomProvider.tsx:97-113 | drops exactly the consumers with that id and the peers whose id is `consumer?.appData.peerId` of the first one, keeping every other consumer and peer with its multiplicity and in order; with no such consumer the consumers stay and exactly the peers without an id go, so the state is unchanged iff every peer has an id |
| RoomProvider.AddPeerCase | client/src/providers/RoomProvider.tsx:115-119 | a known id leaves the state as it is; a new peer is appended; distinct ids stay distinct |
| RoomProvider.AddPeerIdempotent | client/src/providers/RoomProvider.tsx:115-119 | dispatching ADD_PEER twice equals dispatching it once |
| RoomProvider.RemovePeerCase | client/src/providers/RoomProvider.tsx:121-125 | REMOVE_PEER drops exactly the peers with that id, keeps every other with its multiplicity and in order, and changes nothing else |
| RoomProvider.LeaveAndUnknownCases | client/src/providers/RoomProvider.tsx:127-131 | LEAVE_ROOM gives the initial state (lines 12-17); an unknown action returns the state unchanged |
| RoomProvider.ReducerFrame | client/src/providers/RoomProvider.tsx:19-133 | each state field changes only under the actions about it |
| RoomProvider.ReducerKeepsPeerIdsUnique | client/src/providers/RoomProvider.tsx:19-133 | every action keeps peer ids pairwise distinct |
| StringUtils.GenerateMeetingId | client/src/utils/string.utils.ts:1-12 | the loop builds exactly the id defined by appending the picked character and, after every fourth but the last, a dash |
| StringUtils.PrefixLength | client/src/utils/string.utils.ts:4-10 | after `k` iterations there are `k` characters and one dash per completed group of four except after the final character |
| StringUtils.PrefixChars | client/src/utils/string.utils.ts:5-6 | the `i`-th picked character sits at position `i + i/4` |
| StringUtils.PrefixDashes | client/src/utils/string.utils.ts:7-9 | the dashes stand exactly at positions 4, 9, 14, … and every other position holds an alphabet character |
| StringUtils.MeetingIdShape | client/src/utils/string.utils.ts:1-12 | for `length >= 1` the id has `length + (length-1)/4` characters, the picked characters in order, dashes every fifth position and no trailing dash; a non-positive length gives the empty id |
| StringUtils.DefaultShape | client/src/utils/string.utils.ts:1 | the default length gives the shape `xxxx-xxxx` |
| StringUtils.GetGravatarUrl | client/src/utils/string.utils.ts:14-17 | the URL is the avatar prefix followed by a default-length meeting id: nine more characters, with the dash at prefix length + 4 |
| UseStepper.MinStepOf | client/src/hooks/useStepper.ts:4 | `minStep` defaults to 0 when not supplied |
| UseStepper.InitialStepOf | client/src/hooks/useStepper.ts:6-7 | the initial step is `initialStep` when given and at least `minStep`, else `minStep`, so never below `minStep` |
| UseStepper.Stepper.constructor | client/src/hooks/useStepper.ts:3-9 | the step starts at the normalised initial step, at least `minStep` |
| UseStepper.Stepper.CanPreviousStep | client/src/hooks/useStepper.ts:11-13 | holds iff `step > minStep`, so going back stays at or above `minStep` |
| UseStepper.Stepper.CanNextStep | client/src/hooks/useStepper.ts:15-17 | holds iff a `maxStep` is given and `step < maxStep`; never without `maxStep` |
| UseStepper.Stepper.PreviousStep | client/src/hooks/useStepper.ts:19-21 | the step drops by exactly one, unchecked; from an enabled state it stays at or above `minStep` |
| UseStepper.Stepper.NextStep | client/src/hooks/useStepper.ts:23-25 | the step grows by exactly one, unchecked; from an enabled state it stays at or below `maxStep` |
| UseStepper.Stepper.SetStep | client/src/hooks/useStepper.ts:9 | `setStep` sets any value |
| MeetingVideoGrid.OtherPeers | client/src/features/meeting/MeetingVideoGrid.tsx:16-22 | one remote tile per peer, in peer order, each with the consumers attributed to that peer |
| MeetingVideoGrid.MediaTracks | client/src/features/meeting/MeetingVideoGrid.tsx:26-33 | `peers.length + 1` tiles: the local tile with the auth peer and its producers first, then the remote tiles in peer order |
| MeetingVideoGrid.ConsumerAttribution | client/src/features/meeting/MeetingVideoGrid.tsx:19-21 | a remote tile holds exactly the consumers whose `appData.peerId` is its peer's id, in their order and with their multiplicity |
| MeetingVideoGrid.VideoSource | client/src/features/meeting/MeetingVideoGrid.tsx:124-132 | the local tile's video is its first VIDEO producer, a remote tile's its first VIDEO consumer, and it is absent iff there is none |
| MeetingVideoGrid.RemoteSources | client/src/features/meeting/MeetingVideoGrid.tsx:124-141 | a remote tile's video and audio consumers are in the state, belong to the tile's peer and have the right kind, so they are never the same consumer |
| MeetingVideoGrid.LocalAudioIsLost | client/src/features/meeting/MeetingVideoGrid.tsx:134-137 | as written, the local tile gets no audio source whatever AUDIO producers it has, while the `mediaType` lookup finds one |
| MeetingVideoGrid.AudioSource | client/src/features/meeting/MeetingVideoGrid.tsx:133-141 | with `mediaType`, the local audio is the first AUDIO producer and is absent iff there is none; a remote tile's is its first AUDIO consumer, as written |
| MeetingVideoGrid.TotalPages | client/src/features/meeting/MeetingVideoGrid.tsx:38-40 | `ceil(n/10)`: for `n > 0`, `10*(total-1) < n <= 10*total` |
| MeetingVideoGrid.SliceBound | client/src/features/meeting/MeetingVideoGrid.tsx:100-103 | a `slice` bound counts negative values from the end and is clamped to the length |
| MeetingVideoGrid.JsSlice | client/src/features/meeting/MeetingVideoGrid.tsx:100-103 | with the bounds clamped, `slice` has `hi - lo` elements when `lo < hi` and none otherwise, and its `i`-th element is the input's `lo + i`-th |
| MeetingVideoGrid.PageContents | client/src/features/meeting/MeetingVideoGrid.tsx:95-103 | each page `1..total` shows tiles `(p-1)*10 .. min(p*10, n)`, between one and ten of them |
| MeetingVideoGrid.PageOutOfRange | client/src/features/meeting/MeetingVideoGrid.tsx:95-103 | page 0 and pages past the total show nothing |
| MeetingVideoGrid.PagesUpToPrefix | client/src/features/meeting/MeetingVideoGrid.tsx:95-103 | pages `1..k` put together are the first `min(10k, n)` tiles |
| MeetingVideoGrid.PagesCoverTiles | client/src/features/meeting/MeetingVideoGrid.tsx:95-103 | pages `1..total` put together are exactly the tiles |
| MeetingVideoGrid.TileOnOnePage | client/src/features/meeting/MeetingVideoGrid.tsx:95-103 | tile `i` is shown on page `i/10 + 1` at position `i % 10` and on no other page |
| MeetingVideoGrid.PageFlags | client/src/features/meeting/MeetingVideoGrid.tsx:113-114 | on a page in range, it is the last page iff no tile follows it and the first page iff none precedes it |
| MeetingVideoGrid.PageControlsShown | client/src/features/meeting/MeetingVideoGrid.tsx:149 | the page buttons render iff the tiles exceed one page, i.e. there are at least ten remote peers |
| MeetingVideoGrid.StalePage | client/src/features/meeting/MeetingVideoGrid.tsx:95-149 | when the tiles shrink below the current page, the page is empty and is flagged neither last nor first, so both buttons render whenever the controls do, which is while the tiles exceed one page |
| MeetingVideoGrid.VisibleButtonsStayInRange | client/src/features/meeting/MeetingVideoGrid.tsx:105-114 | a button that is shown moves the page within `1..total` |
| MeetingVideoGrid.Pager.constructor | client/src/features/meeting/MeetingVideoGrid.tsx:37 | the page starts at 1, the first page |
| MeetingVideoGrid.Pager.HandleNextPage | client/src/features/meeting/MeetingVideoGrid.tsx:105-107 | the page grows by exactly one |
| MeetingVideoGrid.Pager.HandlePreviousPage | client/src/features/meeting/MeetingVideoGrid.tsx:109-111 | the page drops by exactly one |
| MeetingVideoGrid.CeilSqrt | client/src/features/meeting/MeetingVideoGrid.tsx:52 | `ceil(sqrt n)` is the least `r` with `r*r >= n` |
| MeetingVideoGrid.CeilDiv | client/src/features/meeting/MeetingVideoGrid.tsx:53 | `ceil(a/b)` is the least `q` with `b*q >= a` |
| MeetingVideoGrid.GridShape | client/src/features/meeting/MeetingVideoGrid.tsx:51-58 | there is no grid for no tile (NaN columns); otherwise `rows*cols >= n`, the two differ by at most one, and the longer side runs across a wide container |
| MeetingVideoGrid.NearSquare | client/src/features/meeting/MeetingVideoGrid.tsx:52-53 | with `r = ceil(sqrt n)`, `ceil(n/r)` is `r` or `r - 1` |
| MeetingVideoGrid.GridIsTight | client/src/features/meeting/MeetingVideoGrid.tsx:51-58 | neither side can shrink: the square side is the least whose square holds `n`, and the other side the least that holds `n` |

## Findings

| source | as written | input that shows it | evidently intended | confidence | as-written member | corrected member |
|---|---|---|---|---|---|---|
| client/src/features/meeting/MeetingVideoGrid.tsx:136 | the local tile's audio producer is looked up by `appData.mediaTyp`, a property no producer has | a local tile with a producer whose `appData.mediaType` is AUDIO gets no audio track | look it up by `appData.mediaType`, as the video lookup on line 127 does | high, not executed | MeetingVideoGrid.LocalAudioIsLost | MeetingVideoGrid.AudioSource |

## Left out

- Media engine internals (worker start-up, router and transport creation, ICE/DTLS, `connect`, `produce`, `close`): their answers are parameters and the calls are recorded as `EngineCall`s. `startMediasoup`, its failure at start-up, and the configuration objects Room copies (`webRtcTransport`, `routerSettings`, `activeSpeakerObserver`) are not modelled.
- socket.io plumbing: `socket.join(roomId)`, the delivery of emitted events, and the interleaving of asynchronous handlers. Each handler is one atomic step, in the order of its awaits.
- Logging and `console.log`, including the `@close` transport listener, which only logs.
- ServerRoomSocket.RoomSocket.Delegate: the Room methods room.socket.ts calls but Room.ts does not define are recorded, not interpreted. As written each call throws a `TypeError` once the room has taken the socket; the model treats the method as present, and what it resolves to is a handler parameter.
- ServerRoomSocket.RoomSocket.CreateProducerHandler, ServerRoomSocket.RoomSocket.CreateConsumerHandler, ServerRoomSocket.RoomSocket.GetProducersHandler: Room.ts defines no `createProducer`, `createPeerConsumer` or `getPeerProducers`, so as written `room?.m(...)` throws a `TypeError` and neither the acknowledgement nor the `newProducers` event happens. The model assumes the methods exist and takes what they resolve to as a parameter.
- ServerRoomSocket.RoomSocket.RoomJoin: the `peerJoined` payload is the joined peer's public info, not the whole `Peer` object that socket.io would serialise.
- ServerRoomSocket.RoomSocket.GetRouterRtpCapabilitiesHandler: the `catch` branch is not modelled, because `getRouterRtpCapabilities` only reads a field and cannot throw.
- Room ids that are `undefined` (a `room:create` without an id, or `socket.data.roomId` never set while a room sits under the key `undefined`): room ids are strings in the model.
- The unused second parameter `p0` of `Room.addPeer`, and `Peer.getPeerName`, whose body is empty.
- The TypeScript parameter types that the calls contradict (`sender: boolean`, `transportId: string`). The model uses the values actually passed.
- RoomProvider.Reducer: the reducer is a function on values. The aliasing of the source is not captured. UPDATE_PEER, PAUSE_PRODUCER and RESUME_PRODUCER write into peer objects that the previous state shares, so the previous state changes too.
- The `consumer?.close()` call in REMOVE_CONSUMER (a media-engine effect), and the provider component that wires the reducer into React.
- The client type file does not define `RoomState`, `RoomStateAction` or `MediaType`. The model gives them the shapes the reducer and the grid use.
- UseStepper: React's batching of state updates. Each step method changes `step` at once.
- MeetingVideoGrid.GridShape: `Math.sqrt` is floating point. The model uses the exact integer ceiling of the square root, which the float result equals for tile counts of realistic size. The pixel sizes, the style writes and the resize listeners of `resizeVideos` are DOM work and are left out.
- MeetingVideoGrid.VideoSource: the grid passes the `.track` of the producer or consumer it finds (or `null`) to the tile component. The model returns the producer or consumer. The tile component and every other display property are UI.
