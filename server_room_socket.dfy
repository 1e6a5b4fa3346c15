/**
 * server/src/sockets/room.socket.ts: the state the `RoomSocket` closure keeps
 * (the room registry, the worker pool and its round-robin index) and the
 * socket handlers, each a sequential state transition that returns its
 * acknowledgement and emitted events.
 */
module ServerRoomSocket {
  import opened Wrappers
  import opened Mediasoup
  import opened SocketIo
  import opened ServerPeer
  import opened ServerRoom

  // ---------------------------------------------------------------------------
  // Round-robin worker selection
  // ---------------------------------------------------------------------------

  /** The index after one pick: pre-incremented, reset to 0 when it reaches the pool length. */
  function NextWorkerIdx(idx: nat, len: nat): (next: nat)
    ensures idx < len ==> next < len
    ensures next == 0 || next == idx + 1
  {
    if idx + 1 == len then 0 else idx + 1
  }

  /** The indices read by `k` consecutive picks starting from index `idx`. */
  function PickIndices(idx: nat, len: nat, k: nat): (r: seq<nat>)
    ensures |r| == k
    decreases k
  {
    if k == 0 then [] else [idx] + PickIndices(NextWorkerIdx(idx, len), len, k - 1)
  }

  /** The index after `k` consecutive picks starting from `idx`. */
  function IdxAfter(idx: nat, len: nat, k: nat): nat
    decreases k
  {
    if k == 0 then idx else IdxAfter(NextWorkerIdx(idx, len), len, k - 1)
  }

  /** The ascending indices `lo, lo+1, ..., hi-1`. */
  function Range(lo: nat, hi: nat): (r: seq<nat>)
    ensures |r| == if lo <= hi then hi - lo else 0
    ensures forall i :: 0 <= i < |r| ==> r[i] == lo + i
    decreases hi - lo
  {
    if lo >= hi then [] else [lo] + Range(lo + 1, hi)
  }

  lemma {:induction false} PickIndicesSplit(idx: nat, len: nat, a: nat, b: nat)
    ensures PickIndices(idx, len, a + b) == PickIndices(idx, len, a) + PickIndices(IdxAfter(idx, len, a), len, b)
    decreases a
  {
    if a > 0 {
      PickIndicesSplit(NextWorkerIdx(idx, len), len, a - 1, b);
    }
  }

  /** Without reaching the end of the pool the picks are consecutive, and the last one wraps to 0. */
  lemma {:induction false} PicksUpToEnd(idx: nat, len: nat)
    requires idx < len
    ensures PickIndices(idx, len, len - idx) == Range(idx, len)
    ensures IdxAfter(idx, len, len - idx) == 0
    decreases len - idx
  {
    if idx + 1 < len {
      PicksUpToEnd(idx + 1, len);
    }
  }

  /** Starting from 0, the first `k < len` picks are `0, ..., k-1`. */
  lemma PicksFromZero(k: nat, len: nat)
    requires k < len
    ensures PickIndices(0, len, k) == Range(0, k)
  {
    if k > 0 {
      PicksUpToEnd(0, len);
      PickIndicesSplit(0, len, k, len - k);
      assert PickIndices(0, len, k) == PickIndices(0, len, len)[..k];
    }
  }

  /** Any `len` consecutive picks from a valid index read the pool once around, in order, starting at `idx`. */
  lemma RoundRobinRotation(idx: nat, len: nat)
    requires idx < len
    ensures PickIndices(idx, len, len) == Range(idx, len) + Range(0, idx)
    ensures IdxAfter(idx, len, len) == idx
  {
    PickIndicesSplit(idx, len, len - idx, idx);
    PicksUpToEnd(idx, len);
    if idx > 0 {
      PicksFromZero(idx, len);
    }
    IdxAfterSplit(idx, len, len - idx, idx);
    IdxAfterFromZero(idx, len);
  }

  lemma {:induction false} IdxAfterSplit(idx: nat, len: nat, a: nat, b: nat)
    ensures IdxAfter(idx, len, a + b) == IdxAfter(IdxAfter(idx, len, a), len, b)
    decreases a
  {
    if a > 0 {
      IdxAfterSplit(NextWorkerIdx(idx, len), len, a - 1, b);
    }
  }

  lemma {:induction false} IdxAfterFromZero(k: nat, len: nat)
    requires k < len
    ensures IdxAfter(0, len, k) == k
  {
    if k > 0 {
      IdxAfterFromZero(k - 1, len);
      IdxAfterSplit(0, len, k - 1, 1);
    }
  }

  lemma {:induction false} RangeCount(lo: nat, hi: nat, j: nat)
    ensures multiset(Range(lo, hi))[j] == if lo <= j < hi then 1 else 0
    decreases hi - lo
  {
    if lo < hi {
      var rest: seq<nat> := Range(lo + 1, hi);
      var restCount: nat := multiset(rest)[j];
      RangeCount(lo + 1, hi, j);
      assert multiset(Range(lo, hi))[j] == (if lo == j then 1 else 0) + restCount by {
        assert Range(lo, hi) == [lo] + rest;
      }
    } else {
      assert Range(lo, hi) == [];
    }
  }

  /** Any `len` consecutive picks read every worker exactly once. */
  lemma RoundRobinExactlyOnce(idx: nat, len: nat, j: nat)
    requires idx < len && j < len
    ensures multiset(PickIndices(idx, len, len))[j] == 1
  {
    RoundRobinRotation(idx, len);
    RangeCount(idx, len, j);
    RangeCount(0, idx, j);
  }

  // ---------------------------------------------------------------------------
  // Messages
  // ---------------------------------------------------------------------------

  /** What a `room:join` acknowledgement carries. */
  datatype JoinAck = JoinError(error: string) | JoinResponse(response: PeerInfo)

  const RoomDoesNotExist := "Room doesn't exist"

  /** The `createWebRtcTransport` acknowledgement: each field is `transport?.<field>`. */
  datatype TransportAck = TransportAck(
    id: Option<string>,
    iceParameters: Option<Opaque>,
    iceCandidates: Option<Opaque>,
    dtlsParameters: Option<Opaque>)

  /** The `createProducer` acknowledgement `{id: producer?.id}`. */
  datatype ProducerAck = ProducerAck(id: Option<string>)

  /** The `createConsumer` acknowledgement. */
  datatype ConsumerAck = ConsumerAck(
    producerId: string,
    id: Option<string>,
    kind: Option<MediaKind>,
    rtpParameters: Option<Opaque>,
    serverConsumerId: Option<string>)

  /** Pushed events. */
  datatype ServerEvent = PeerJoined(peer: PeerInfo) | NewProducers(producers: Opaque)

  /** Where an event goes: to the room without the sender (`socket.to`) or to the sender only. */
  datatype Emit = ToOthersInRoom(roomId: string, event: ServerEvent) | ToSender(event: ServerEvent)

  /**
   * A Room method that room.socket.ts calls but Room.ts does not define; the
   * model records the call and leaves its effect uninterpreted.
   */
  datatype RoomCall =
    | ConnectWebRtcTransport(transportId: JsKey, dtlsParameters: Opaque)
    | CreateProducer(options: ProducerOptions)
    | CloseProducer(producerId: string)
    | PauseProducer(producerId: string)
    | ResumeProducer(producerId: string)
    | CreatePeerConsumer(producerId: string, rtpCapabilities: Opaque)
    | GetPeerProducers
    | ResumeConsumer(consumerId: string)
    | SendPeerAction(actionType: string, action: Opaque)

  /** A call handed to a room. */
  datatype Delegation = Delegation(room: Room, call: RoomCall)

  /** The `createWebRtcTransport` acknowledgement: each field is `transport?.<field>`. */
  function TransportAckOf(transport: Option<WebRtcTransport>): (ack: TransportAck)
    ensures transport.None? ==> ack == TransportAck(None, None, None, None)
    ensures transport.Some? ==>
      && ack.id == Some(transport.value.id)
      && ack.iceParameters == Some(transport.value.iceParameters)
      && ack.iceCandidates == Some(transport.value.iceCandidates)
      && ack.dtlsParameters == Some(transport.value.dtlsParameters)
  {
    match transport
    case None => TransportAck(None, None, None, None)
    case Some(t) => TransportAck(Some(t.id), Some(t.iceParameters), Some(t.iceCandidates), Some(t.dtlsParameters))
  }

  /** The acknowledgement built from what `createPeerConsumer` resolved to. */
  function ConsumerAckOf(producerId: string, consumer: Option<Consumer>): (ack: ConsumerAck)
    ensures ack.producerId == producerId
    ensures ack.serverConsumerId == ack.id
    ensures consumer.None? ==> ack.id.None? && ack.kind.None? && ack.rtpParameters.None?
    ensures consumer.Some? ==>
      && ack.id == Some(consumer.value.id)
      && ack.kind == Some(consumer.value.kind)
      && ack.rtpParameters == Some(consumer.value.rtpParameters)
  {
    match consumer
    case None => ConsumerAck(producerId, None, None, None, None)
    case Some(c) => ConsumerAck(producerId, Some(c.id), Some(c.kind), Some(c.rtpParameters), Some(c.id))
  }

  // ---------------------------------------------------------------------------
  // The registry and the handlers
  // ---------------------------------------------------------------------------

  class RoomSocket {
    var rooms: map<string, Room>
    var nextMediasoupWorkerIdx: nat
    const mediasoupWorkers: seq<MediasoupWorker>

    /** All peers of all registered rooms. */
    ghost function Peers(): set<Peer>
      reads this, rooms.Values
    {
      set r, p | r in rooms.Values && p in r.peers.Values :: p
    }

    ghost predicate Valid()
      reads this, rooms.Values, Peers()
    {
      && (|mediasoupWorkers| > 0 ==> nextMediasoupWorkerIdx < |mediasoupWorkers|)
      && forall k :: k in rooms ==> rooms[k].roomId == k && rooms[k].Valid()
    }

    /** The registry starts empty with the index at 0 over the pool started before any connection. */
    constructor (workers: seq<MediasoupWorker>)
      ensures Valid()
      ensures rooms == map[] && nextMediasoupWorkerIdx == 0 && mediasoupWorkers == workers
    {
      rooms := map[];
      nextMediasoupWorkerIdx := 0;
      mediasoupWorkers := workers;
    }

    /** `mediasoupWorkers[idx]`, which is `undefined` past the end. */
    function WorkerAt(idx: nat): (w: Option<MediasoupWorker>)
      ensures w.Some? <==> idx < |mediasoupWorkers|
      ensures w.Some? ==> w.value == mediasoupWorkers[idx]
    {
      if idx < |mediasoupWorkers| then Some(mediasoupWorkers[idx]) else None
    }

    /** The peers of the room the socket's recorded `roomId` names. */
    ghost function CurrentPeers(socket: Socket): set<Peer>
      reads this, socket, rooms.Values
    {
      if socket.dataRoomId.Some? && socket.dataRoomId.value in rooms
      then rooms[socket.dataRoomId.value].peers.Values else {}
    }

    /** The room the socket's recorded `roomId` names, if any. */
    function CurrentRoom(socket: Socket): (room: Option<Room>)
      reads this, socket
      ensures room.Some? <==> socket.dataRoomId.Some? && socket.dataRoomId.value in rooms
      ensures room.Some? ==> room.value == rooms[socket.dataRoomId.value]
    {
      if socket.dataRoomId.Some? && socket.dataRoomId.value in rooms
      then Some(rooms[socket.dataRoomId.value]) else None
    }

    /** Returns the worker at the index and advances the index by one, wrapping at the pool length. */
    method GetMediasoupWorker() returns (worker: Option<MediasoupWorker>)
      requires Valid()
      modifies this`nextMediasoupWorkerIdx
      ensures Valid()
      ensures worker == WorkerAt(old(nextMediasoupWorkerIdx))
      ensures nextMediasoupWorkerIdx == NextWorkerIdx(old(nextMediasoupWorkerIdx), |mediasoupWorkers|)
      ensures |mediasoupWorkers| > 0 ==> worker.Some?
    {
      worker := WorkerAt(nextMediasoupWorkerIdx);
      nextMediasoupWorkerIdx := nextMediasoupWorkerIdx + 1;
      if nextMediasoupWorkerIdx == |mediasoupWorkers| {
        nextMediasoupWorkerIdx := 0;
      }
    }

    /**
     * `room:create`: an existing id changes nothing; otherwise one worker is
     * picked and a new Room on its router is registered. With an empty pool the
     * picked worker is `undefined`, the Room constructor throws and no room is
     * registered, but the index has already moved.
     */
    method RoomCreate(socket: Socket, roomId: string)
      requires Valid()
      modifies this
      ensures Valid()
      ensures old(roomId in rooms) ==> rooms == old(rooms) && nextMediasoupWorkerIdx == old(nextMediasoupWorkerIdx)
      ensures !old(roomId in rooms) ==>
        nextMediasoupWorkerIdx == NextWorkerIdx(old(nextMediasoupWorkerIdx), |mediasoupWorkers|)
      ensures !old(roomId in rooms) && old(nextMediasoupWorkerIdx) < |mediasoupWorkers| ==>
        && roomId in rooms
        && fresh(rooms[roomId])
        && rooms == old(rooms)[roomId := rooms[roomId]]
        && rooms[roomId].router == mediasoupWorkers[old(nextMediasoupWorkerIdx)].router
        && rooms[roomId].worker == mediasoupWorkers[old(nextMediasoupWorkerIdx)].worker
        && rooms[roomId].peers == map[]
        && rooms[roomId].socket == socket
      ensures !old(roomId in rooms) && old(nextMediasoupWorkerIdx) >= |mediasoupWorkers| ==> rooms == old(rooms)
    {
      if roomId in rooms {
        return;
      }
      var roomWorker := GetMediasoupWorker();
      if roomWorker.Some? {
        var room := new Room(roomId, roomWorker.value, socket);
        rooms := rooms[roomId := room];
      }
    }

    /**
     * `room:join`: records the room id on the socket first; an unknown room is
     * acknowledged with an error. Otherwise the room is bound to this socket and
     * a new Peer, whose id and submitted `peerInfo.id` are both the socket id,
     * is added; the others in the room are told, and the acknowledgement carries
     * the peer's public information.
     */
    method RoomJoin(socket: Socket, roomId: string, peerInfo: PeerInfo) returns (ack: JoinAck, emitted: seq<Emit>)
      requires Valid()
      modifies socket, rooms.Values
      ensures Valid()
      ensures socket.dataRoomId == Some(roomId)
      ensures roomId !in rooms ==>
        && ack == JoinError(RoomDoesNotExist) && emitted == []
        && forall r :: r in rooms.Values ==> r.peers == old(r.peers) && r.socket == old(r.socket)
      ensures roomId in rooms ==>
        && rooms[roomId].socket == socket
        && socket.id in rooms[roomId].peers
        && fresh(rooms[roomId].peers[socket.id])
        && rooms[roomId].peers == old(rooms[roomId].peers)[socket.id := rooms[roomId].peers[socket.id]]
        && rooms[roomId].peers[socket.id].GetPeerInfo() == peerInfo.(id := socket.id)
        && ack == JoinResponse(peerInfo.(id := socket.id))
        && emitted == [ToOthersInRoom(roomId, PeerJoined(peerInfo.(id := socket.id)))]
        && forall r :: r in rooms.Values && r != rooms[roomId] ==> r.peers == old(r.peers) && r.socket == old(r.socket)
    {
      socket.dataRoomId := Some(roomId);
      var room := CurrentRoom(socket);
      if room.None? {
        ack, emitted := JoinError(RoomDoesNotExist), [];
        return;
      }
      var r := room.value;
      assert r == rooms[roomId];
      r.socket := socket;
      var peer := new Peer(socket.id, PeerData(roomId, peerInfo.(id := socket.id)));
      r.AddPeer(peer);
      var joined := r.GetPeer(socket.id);
      var info := joined.value.GetPeerInfo();
      emitted := [ToOthersInRoom(roomId, PeerJoined(info))];
      ack := JoinResponse(info);
      assert forall k :: k in rooms ==> rooms[k].roomId == k && rooms[k].Valid();
    }

    /** The guard every in-room handler starts with: no room, no effect; otherwise the room serves this socket. */
    method EnterRoom(socket: Socket) returns (room: Option<Room>)
      requires Valid()
      modifies rooms.Values
      ensures Valid()
      ensures room == old(CurrentRoom(socket))
      ensures room.Some? ==> room.value.socket == socket
      ensures forall r :: r in rooms.Values ==> r.peers == old(r.peers)
      ensures forall r :: r in rooms.Values && (room.None? || r != room.value) ==> r.socket == old(r.socket)
    {
      room := CurrentRoom(socket);
      if room.Some? {
        room.value.socket := socket;
      }
    }

    /** An in-room handler whose Room method is not defined in Room.ts: the call is handed to the room, if there is one. */
    method Delegate(socket: Socket, call: RoomCall) returns (delegated: Option<Delegation>)
      requires Valid()
      modifies rooms.Values
      ensures Valid()
      ensures old(CurrentRoom(socket)).None? ==> delegated == None
      ensures old(CurrentRoom(socket)).Some? ==>
        delegated == Some(Delegation(old(CurrentRoom(socket)).value, call)) && delegated.value.room.socket == socket
      ensures forall r :: r in rooms.Values ==> r.peers == old(r.peers)
      ensures forall r :: r in rooms.Values && (delegated.None? || r != delegated.value.room) ==> r.socket == old(r.socket)
    {
      var room := EnterRoom(socket);
      if room.Some? {
        delegated := Some(Delegation(room.value, call));
      } else {
        delegated := None;
      }
    }

    /** `getRouterRtpCapabilities`: acknowledged with the room router's capabilities; no room, no acknowledgement. */
    method GetRouterRtpCapabilitiesHandler(socket: Socket) returns (ack: Option<Opaque>)
      requires Valid()
      modifies rooms.Values
      ensures Valid()
      ensures old(CurrentRoom(socket)).None? ==> ack == None
      ensures old(CurrentRoom(socket)).Some? ==>
        var room := old(CurrentRoom(socket)).value;
        room.socket == socket && ack == Some(room.router.rtpCapabilities)
      ensures forall r :: r in rooms.Values ==> r.peers == old(r.peers)
      ensures forall r :: r in rooms.Values && (old(CurrentRoom(socket)).None? || r != old(CurrentRoom(socket)).value) ==>
        r.socket == old(r.socket)
    {
      var room := EnterRoom(socket);
      if room.None? {
        return None;
      }
      var caps := room.value.GetRouterRtpCapabilities();
      ack := Some(caps);
    }

    /**
     * `createWebRtcTransport`: the room receives `{producing, consuming}` as its
     * `sender` argument. A router failure rejects the handler before the
     * acknowledgement; otherwise the acknowledgement is built from the
     * `undefined` the room resolves to.
     */
    method CreateWebRtcTransportHandler(socket: Socket, producing: Option<bool>, consuming: Option<bool>, created: Result<WebRtcTransport, EngineError>)
      returns (ack: Option<TransportAck>)
      requires Valid()
      modifies rooms.Values, CurrentPeers(socket)
      ensures Valid()
      ensures old(CurrentRoom(socket)).None? || created.Failure? ==> ack == None
      ensures old(CurrentRoom(socket)).Some? && created.Success? ==> ack == Some(TransportAck(None, None, None, None))
      ensures old(CurrentRoom(socket)).Some? ==>
        var room := old(CurrentRoom(socket)).value;
        room.socket == socket && room.TransportStored(TransportRoles(producing, consuming), created)
      ensures forall r :: r in rooms.Values ==> r.peers == old(r.peers)
      ensures forall r :: r in rooms.Values && (old(CurrentRoom(socket)).None? || r != old(CurrentRoom(socket)).value) ==>
        r.socket == old(r.socket)
    {
      var room := CurrentRoom(socket);
      if room.None? {
        return None;
      }
      var r := room.value;
      var transport := ServeCreateWebRtcTransport(r, socket, TransportRoles(producing, consuming), created);
      RoomsStayValid(r);
      if transport.Failure? {
        return None;
      }
      ack := Some(TransportAckOf(transport.value));
    }

    /** `createWebRtcTransport` once its room is found: the room takes the socket, then creates the transport. */
    static method ServeCreateWebRtcTransport(r: Room, socket: Socket, sender: SenderArg, created: Result<WebRtcTransport, EngineError>)
      returns (result: Result<Option<WebRtcTransport>, EngineError>)
      requires r.Valid()
      modifies r, r.peers.Values
      ensures r.Valid()
      ensures result == if created.Failure? then Failure(created.error) else Success(None)
      ensures r.socket == socket && r.TransportStored(sender, created)
    {
      r.socket := socket;
      result := r.CreateWebRtcTransport(sender, created);
    }

    /** The registry keeps its invariant when only the peers of the registered, valid room `changed` were modified. */
    twostate lemma RoomsStayValid(changed: Room)
      requires old(Valid())
      requires changed in rooms.Values && changed.Valid()
      requires rooms == old(rooms) && nextMediasoupWorkerIdx == old(nextMediasoupWorkerIdx)
      requires forall r :: r in rooms.Values ==> r.peers == old(r.peers)
      requires forall k, j :: k in rooms && j in rooms[k].peers && rooms[k].peers[j] !in changed.peers.Values ==>
        unchanged(rooms[k].peers[j])
      ensures Valid()
    {
      forall k, j | k in rooms && j in rooms[k].peers
        ensures rooms[k].peers[j].id == j && rooms[k].peers[j].Valid()
      {
        var q := rooms[k].peers[j];
        assert old(rooms[k].peers[j].Valid());
        if q in changed.peers.Values {
          var jj :| jj in changed.peers && changed.peers[jj] == q;
        }
      }
    }

    /** `createProducer`: acknowledged with `{id: producer?.id}` of what the room's `createProducer` resolved to. */
    method CreateProducerHandler(socket: Socket, options: ProducerOptions, produced: Option<Producer>)
      returns (delegated: Option<Delegation>, ack: Option<ProducerAck>)
      requires Valid()
      modifies rooms.Values
      ensures Valid()
      ensures delegated == (if old(CurrentRoom(socket)).Some? then Some(Delegation(old(CurrentRoom(socket)).value, CreateProducer(options))) else None)
      ensures delegated.None? ==> ack == None
      ensures delegated.Some? ==> ack == Some(ProducerAck(if produced.Some? then Some(produced.value.id) else None))
      ensures delegated.Some? ==> delegated.value.room.socket == socket
      ensures forall r :: r in rooms.Values ==> r.peers == old(r.peers)
      ensures forall r :: r in rooms.Values && (delegated.None? || r != delegated.value.room) ==> r.socket == old(r.socket)
    {
      delegated := Delegate(socket, CreateProducer(options));
      if delegated.None? {
        return None, None;
      }
      ack := Some(ProducerAck(if produced.Some? then Some(produced.value.id) else None));
    }

    /** `createConsumer`: the acknowledgement repeats the requested producer id and gives the consumer id twice. */
    method CreateConsumerHandler(socket: Socket, producerId: string, rtpCapabilities: Opaque, consumer: Option<Consumer>)
      returns (delegated: Option<Delegation>, ack: Option<ConsumerAck>)
      requires Valid()
      modifies rooms.Values
      ensures Valid()
      ensures delegated == (if old(CurrentRoom(socket)).Some? then Some(Delegation(old(CurrentRoom(socket)).value, CreatePeerConsumer(producerId, rtpCapabilities))) else None)
      ensures delegated.None? ==> ack == None
      ensures delegated.Some? ==>
        && ack.Some?
        && ack.value.producerId == producerId
        && ack.value.serverConsumerId == ack.value.id
        && ack.value == ConsumerAckOf(producerId, consumer)
      ensures delegated.Some? ==> delegated.value.room.socket == socket
      ensures forall r :: r in rooms.Values ==> r.peers == old(r.peers)
      ensures forall r :: r in rooms.Values && (delegated.None? || r != delegated.value.room) ==> r.socket == old(r.socket)
    {
      delegated := Delegate(socket, CreatePeerConsumer(producerId, rtpCapabilities));
      if delegated.None? {
        return None, None;
      }
      ack := Some(ConsumerAckOf(producerId, consumer));
    }

    /** `getProducers`: what `getPeerProducers` resolved to is pushed to the requesting socket only. */
    method GetProducersHandler(socket: Socket, producers: Opaque)
      returns (delegated: Option<Delegation>, emitted: seq<Emit>)
      requires Valid()
      modifies rooms.Values
      ensures Valid()
      ensures delegated == (if old(CurrentRoom(socket)).Some? then Some(Delegation(old(CurrentRoom(socket)).value, GetPeerProducers)) else None)
      ensures emitted == if delegated.Some? then [ToSender(NewProducers(producers))] else []
      ensures delegated.Some? ==> delegated.value.room.socket == socket
      ensures forall r :: r in rooms.Values ==> r.peers == old(r.peers)
      ensures forall r :: r in rooms.Values && (delegated.None? || r != delegated.value.room) ==> r.socket == old(r.socket)
    {
      delegated := Delegate(socket, GetPeerProducers);
      emitted := if delegated.Some? then [ToSender(NewProducers(producers))] else [];
    }

    /** `disconnect` only logs: no room and no peer changes. */
    method Disconnect(socket: Socket)
      ensures unchanged(this) && unchanged(rooms.Values) && unchanged(Peers()) && unchanged(socket)
    {
    }
  }
}
