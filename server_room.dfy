/**
 * server/src/utils/Room.ts: one meeting. It holds the peers by connection id,
 * the worker and router it was created with, and the socket of the connection
 * whose request it is currently serving (callers reassign `socket`).
 */
module ServerRoom {
  import opened Wrappers
  import opened Mediasoup
  import opened SocketIo
  import opened ServerPeer

  class Room {
    const roomId: string
    var socket: Socket
    var peers: map<string, Peer>
    const worker: Worker
    const router: Router

    /** Every peer is stored under its own id and keeps its own invariant. */
    ghost predicate Valid()
      reads this, peers.Values
    {
      forall k :: k in peers ==> peers[k].id == k && peers[k].Valid()
    }

    /** `worker` is the pool element the registry picked; the room starts with no peers. */
    constructor (roomId: string, worker: MediasoupWorker, socket: Socket)
      ensures Valid()
      ensures this.roomId == roomId && this.socket == socket && peers == map[]
      ensures router == worker.router && this.worker == worker.worker
    {
      this.socket := socket;
      this.roomId := roomId;
      peers := map[];
      router := worker.router;
      this.worker := worker.worker;
    }

    function GetPeer(socketId: string): (r: Option<Peer>)
      reads this
      ensures r.Some? <==> socketId in peers
      ensures r.Some? ==> r.value == peers[socketId]
    {
      if socketId in peers then Some(peers[socketId]) else None
    }

    /** Stores `peer` under `peer.id` with no uniqueness check: a colliding id replaces the earlier peer. */
    method AddPeer(peer: Peer)
      requires Valid() && peer.Valid()
      modifies this`peers
      ensures Valid()
      ensures peers == old(peers)[peer.id := peer]
      ensures GetPeer(peer.id) == Some(peer)
    {
      peers := peers[peer.id := peer];
    }

    /** The router's capability set, returned as it is. */
    method GetRouterRtpCapabilities() returns (caps: Opaque)
      ensures caps == router.rtpCapabilities
    {
      caps := router.rtpCapabilities;
    }

    /**
     * `transport?.transport` for the transport entry `transportId` of the peer
     * bound to the current socket: the media transport a connect or produce
     * request reaches, if any.
     */
    function CurrentTransport(transportId: JsKey): (t: Option<WebRtcTransport>)
      reads this, peers.Values
      ensures t.Some? <==>
        && socket.id in peers
        && transportId in peers[socket.id].transports
        && peers[socket.id].transports[transportId].TransportWrapper?
      ensures t.Some? ==> t.value == peers[socket.id].transports[transportId].transport
    {
      var peer := GetPeer(socket.id);
      if peer.None? then None
      else
        var entry := peer.value.GetTransport(transportId);
        if entry.None? then None else entry.value.TransportProperty()
    }

    /** With every entry stored under its own id, a string transport id never reaches a media transport. */
    lemma OnlyUndefinedKeyReachesTransport(s: string)
      requires Valid()
      ensures CurrentTransport(Key(s)) == None
    {
      if socket.id in peers && Key(s) in peers[socket.id].transports {
        assert peers[socket.id].transports[Key(s)].Id() == Key(s);
      }
    }

    /**
     * What `createWebRtcTransport` does to the peers: on success the current
     * peer's transports gain `{transport, sender}` under `undefined`; no other
     * transport entry, consumer, producer or peer information changes.
     */
    twostate predicate TransportStored(sender: SenderArg, created: Result<WebRtcTransport, EngineError>)
      reads this, peers.Values
    {
      var current := socket.id;
      && peers == old(peers)
      && (created.Success? && current in peers ==>
            peers[current].transports == old(peers[current].transports)[Undefined := TransportWrapper(created.value, sender)])
      && (forall k :: k in peers && (created.Failure? || k != current) ==> peers[k].transports == old(peers[k].transports))
      && (forall k :: k in peers ==>
            && peers[k].consumers == old(peers[k].consumers)
            && peers[k].producers == old(peers[k].producers)
            && peers[k].GetPeerInfo() == old(peers[k].GetPeerInfo()))
    }

    /**
     * Asks the router for a transport (`created` is what the router answers) and
     * attaches `{transport, sender}` to the current peer. That wrapper has no
     * `id`, so it is stored under the key `undefined`. A router failure is
     * rethrown. On success the method resolves to the outer `transport`
     * variable, which the inner `const transport` shadows, so it is `undefined`.
     */
    method CreateWebRtcTransport(sender: SenderArg, created: Result<WebRtcTransport, EngineError>)
      returns (result: Result<Option<WebRtcTransport>, EngineError>)
      requires Valid()
      modifies peers.Values
      ensures Valid()
      ensures result == if created.Failure? then Failure(created.error) else Success(None)
      ensures TransportStored(sender, created)
    {
      if created.Failure? {
        return Failure(created.error);
      }
      var transport := created.value;
      var peer := GetPeer(socket.id);
      if peer.Some? {
        peer.value.AddTransport(TransportWrapper(transport, sender));
      }
      result := Success(None);
    }

    /**
     * Forwards `dtlsParameters` to `connect` of the transport the current peer
     * stores under `transportId`; `connected` is the engine's answer. Without
     * such a transport nothing is called and the method resolves.
     */
    method ConnectSendWebRtcTransport(transportId: JsKey, dtlsParameters: Opaque, connected: Result<(), EngineError>)
      returns (outcome: Result<(), EngineError>, calls: seq<EngineCall>)
      ensures CurrentTransport(transportId).None? ==> outcome == Success(()) && calls == []
      ensures CurrentTransport(transportId).Some? ==>
        outcome == connected && calls == [ConnectTransport(CurrentTransport(transportId).value.id, dtlsParameters)]
    {
      var transport := CurrentTransport(transportId);
      if transport.Some? {
        outcome, calls := connected, [ConnectTransport(transport.value.id, dtlsParameters)];
      } else {
        outcome, calls := Success(()), [];
      }
    }

    /**
     * Asks the transport the current peer stores under `transportId` to
     * produce; `produced` is the engine's answer. The producer is returned and
     * NOT registered under the peer. Without such a transport it resolves to `undefined`.
     */
    method CreatePeerProducer(transportId: JsKey, parameters: ProducerOptions, produced: Result<Producer, EngineError>)
      returns (result: Result<Option<Producer>, EngineError>, calls: seq<EngineCall>)
      ensures CurrentTransport(transportId).None? ==> result == Success(None) && calls == []
      ensures CurrentTransport(transportId).Some? ==>
        && calls == [Produce(CurrentTransport(transportId).value.id, parameters)]
        && result == if produced.Failure? then Failure(produced.error) else Success(Some(produced.value))
    {
      var transport := CurrentTransport(transportId);
      if transport.None? {
        return Success(None), [];
      }
      calls := [Produce(transport.value.id, parameters)];
      if produced.Failure? {
        result := Failure(produced.error);
      } else {
        result := Success(Some(produced.value));
      }
    }
  }

  /** The `dtlsstatechange` listener of a created transport: it closes the transport exactly when DTLS is closed. */
  function OnDtlsStateChange(transport: WebRtcTransport, dtlsState: DtlsState): (calls: seq<EngineCall>)
    ensures dtlsState == Closed ==> calls == [CloseTransport(transport.id)]
    ensures dtlsState != Closed ==> calls == []
  {
    if dtlsState == Closed then [CloseTransport(transport.id)] else []
  }
}
