/**
 * server/src/utils/Peer.ts: one connection's session state. The display
 * attributes are copied from the submitted peer information; transports,
 * consumers and producers are JavaScript Maps changed in place.
 */
module ServerPeer {
  import opened Wrappers
  import opened Mediasoup

  /** The public description of a peer (server/src/types/room.type.ts). */
  datatype PeerInfo = PeerInfo(
    id: string,
    userAgent: map<string, string>,
    channelPassword: string,
    peerName: string,
    peerGender: string,
    avatar: string,
    peerVideo: bool,
    peerAudio: bool,
    peerRaisedHand: bool,
    peerScreenRecord: bool,
    peerScreenShare: bool)

  /** The `{roomId, peerInfo}` record the constructor receives. */
  datatype PeerData = PeerData(roomId: string, peerInfo: PeerInfo)

  /** A Map key read as `value.id`: it is `undefined` when the value has no `id` property. */
  datatype JsKey = Undefined | Key(s: string)

  /**
   * The `sender` argument of `Room.createWebRtcTransport`: declared a boolean,
   * but the socket handler passes the object `{producing, consuming}`, whose
   * fields are `undefined` (`None`) when the client's request leaves them out.
   */
  datatype SenderArg = SenderFlag(sender: bool) | TransportRoles(producing: Option<bool>, consuming: Option<bool>)

  /**
   * A value stored in the transports Map: a transport object itself, or the
   * wrapper object `{transport, sender}` that Room.createWebRtcTransport builds.
   */
  datatype TransportValue =
    | TransportObject(self: WebRtcTransport)
    | TransportWrapper(transport: WebRtcTransport, sender: SenderArg)
  {
    /** `value.id`: the wrapper object has no `id` property. */
    function Id(): (k: JsKey)
      ensures k.Key? <==> TransportObject?
    {
      match this
      case TransportObject(t) => Key(t.id)
      case TransportWrapper(_, _) => Undefined
    }

    /** `value.transport`: only the wrapper object has that property. */
    function TransportProperty(): (t: Option<WebRtcTransport>)
      ensures t.Some? <==> TransportWrapper?
    {
      match this
      case TransportObject(_) => None
      case TransportWrapper(t, _) => Some(t)
    }
  }

  class Peer {
    const id: string
    var avatar: string
    var peerName: string
    var userAgent: map<string, string>
    var peerVideo: bool
    var peerAudio: bool
    var peerGender: string
    var consumers: map<string, Consumer>
    var producers: map<string, Producer>
    var transports: map<JsKey, TransportValue>
    var channelPassword: string
    var peerRaisedHand: bool
    var peerScreenRecord: bool
    var peerScreenShare: bool

    /** Every Map entry is stored under the `id` of its own value. */
    ghost predicate Valid()
      reads this
    {
      && (forall k :: k in transports ==> transports[k].Id() == k)
      && (forall k :: k in consumers ==> consumers[k].id == k)
      && (forall k :: k in producers ==> producers[k].id == k)
    }

    /** The peer's identity is the connection id; the display attributes come from `data.peerInfo`. */
    constructor (socketId: string, data: PeerData)
      ensures Valid()
      ensures id == socketId
      ensures transports == map[] && consumers == map[] && producers == map[]
      ensures GetPeerInfo() == data.peerInfo.(id := socketId)
    {
      id := socketId;
      transports := map[];
      consumers := map[];
      producers := map[];
      avatar := data.peerInfo.avatar;
      userAgent := data.peerInfo.userAgent;
      peerName := data.peerInfo.peerName;
      peerVideo := data.peerInfo.peerVideo;
      peerAudio := data.peerInfo.peerAudio;
      peerGender := data.peerInfo.peerGender;
      channelPassword := data.peerInfo.channelPassword;
      peerRaisedHand := data.peerInfo.peerRaisedHand;
      peerScreenRecord := data.peerInfo.peerScreenRecord;
      peerScreenShare := data.peerInfo.peerScreenShare;
    }

    function GetTransport(transportId: JsKey): (r: Option<TransportValue>)
      reads this
      ensures r.Some? <==> transportId in transports
      ensures r.Some? ==> r.value == transports[transportId]
      ensures Valid() && r.Some? ==> r.value.Id() == transportId
    {
      if transportId in transports then Some(transports[transportId]) else None
    }

    /** Removes exactly the entry `transportId`; an absent key is a no-op. */
    method DelTransport(transportId: JsKey)
      requires Valid()
      modifies this`transports
      ensures Valid()
      ensures transports == old(transports) - {transportId}
      ensures GetTransport(transportId) == None
      ensures consumers == old(consumers) && producers == old(producers) && GetPeerInfo() == old(GetPeerInfo())
    {
      transports := transports - {transportId};
    }

    /** Stores `transport` under `transport.id`, replacing an entry with the same key (last write wins). */
    method AddTransport(transport: TransportValue)
      requires Valid()
      modifies this`transports
      ensures Valid()
      ensures transports == old(transports)[transport.Id() := transport]
      ensures GetTransport(transport.Id()) == Some(transport)
      ensures |transports| == |old(transports)| + (if transport.Id() in old(transports) then 0 else 1)
      ensures consumers == old(consumers) && producers == old(producers) && GetPeerInfo() == old(GetPeerInfo())
    {
      transports := transports[transport.Id() := transport];
    }

    function GetConsumer(consumerId: string): (r: Option<Consumer>)
      reads this
      ensures r.Some? <==> consumerId in consumers
      ensures r.Some? ==> r.value == consumers[consumerId]
      ensures Valid() && r.Some? ==> r.value.id == consumerId
    {
      if consumerId in consumers then Some(consumers[consumerId]) else None
    }

    method DelConsumer(consumerId: string)
      requires Valid()
      modifies this`consumers
      ensures Valid()
      ensures consumers == old(consumers) - {consumerId}
      ensures GetConsumer(consumerId) == None
      ensures transports == old(transports) && producers == old(producers) && GetPeerInfo() == old(GetPeerInfo())
    {
      consumers := consumers - {consumerId};
    }

    method AddConsumer(consumer: Consumer)
      requires Valid()
      modifies this`consumers
      ensures Valid()
      ensures consumers == old(consumers)[consumer.id := consumer]
      ensures GetConsumer(consumer.id) == Some(consumer)
      ensures |consumers| == |old(consumers)| + (if consumer.id in old(consumers) then 0 else 1)
      ensures transports == old(transports) && producers == old(producers) && GetPeerInfo() == old(GetPeerInfo())
    {
      consumers := consumers[consumer.id := consumer];
    }

    function GetProducer(producerId: string): (r: Option<Producer>)
      reads this
      ensures r.Some? <==> producerId in producers
      ensures r.Some? ==> r.value == producers[producerId]
      ensures Valid() && r.Some? ==> r.value.id == producerId
    {
      if producerId in producers then Some(producers[producerId]) else None
    }

    method DelProducer(producerId: string)
      requires Valid()
      modifies this`producers
      ensures Valid()
      ensures producers == old(producers) - {producerId}
      ensures GetProducer(producerId) == None
      ensures transports == old(transports) && consumers == old(consumers) && GetPeerInfo() == old(GetPeerInfo())
    {
      producers := producers - {producerId};
    }

    method AddProducer(producer: Producer)
      requires Valid()
      modifies this`producers
      ensures Valid()
      ensures producers == old(producers)[producer.id := producer]
      ensures GetProducer(producer.id) == Some(producer)
      ensures |producers| == |old(producers)| + (if producer.id in old(producers) then 0 else 1)
      ensures transports == old(transports) && consumers == old(consumers) && GetPeerInfo() == old(GetPeerInfo())
    {
      producers := producers[producer.id := producer];
    }

    /** The snapshot sent to other peers: the identity and the ten display attributes, nothing else. */
    function GetPeerInfo(): (info: PeerInfo)
      reads this
      ensures info.id == id
    {
      PeerInfo(id, userAgent, channelPassword, peerName, peerGender, avatar,
               peerVideo, peerAudio, peerRaisedHand, peerScreenRecord, peerScreenShare)
    }
  }
}
