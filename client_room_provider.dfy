/**
 * client/src/providers/RoomProvider.tsx: the room state of the meeting page
 * and the reducer that folds dispatched actions into it. The reducer is a
 * pure function of the state and the action.
 */
module RoomProvider {
  import opened Wrappers
  import opened Seqs

  /** The `appData.mediaType` tag of a producer. */
  datatype MediaType = VIDEO | AUDIO | OtherMedia(tag: string)

  /** The `type` of a peer action: which flag of a peer it sets. */
  datatype PeerActionType = PeerVideo | PeerAudio | ScreenShare | RaiseHand | Rec | OtherAction(tag: string)

  /** A peer as the client stores it; `id?: string` is optional, and `None` stands for `undefined`. */
  datatype PeerInfo = PeerInfo(
    id: Option<string>,
    userAgent: string,
    channelPassword: string,
    peerName: string,
    peerGender: string,
    avatar: string,
    peerVideo: bool,
    peerAudio: bool,
    peerRaisedHand: bool,
    peerScreenRecord: bool,
    peerScreenShare: bool)

  /** A local producer: its id and `appData.mediaType`. */
  datatype Producer = Producer(id: string, mediaType: MediaType)

  /** A consumer of a remote stream: its id, its kind and the `appData.peerId` of the remote peer. */
  datatype Consumer = Consumer(id: string, kind: MediaType, peerId: string)

  datatype RoomState = RoomState(
    authPeer: Option<PeerInfo>,
    producers: seq<Producer>,
    consumers: seq<Consumer>,
    peers: seq<PeerInfo>)

  datatype RoomStateAction =
    | SET_AUTH_PEER(authPeer: Option<PeerInfo>)
    | ADD_PRODUCER(producer: Producer)
    | UPDATE_PEER(peerId: string, actionType: PeerActionType, action: bool)
    | REMOVE_PRODUCER(producerId: string)
    | PAUSE_PRODUCER(pausedId: string)
    | RESUME_PRODUCER(resumedId: string)
    | ADD_CONSUMER(consumer: Consumer)
    | REMOVE_CONSUMER(consumerId: string)
    | ADD_PEER(peer: PeerInfo)
    | REMOVE_PEER(removedPeerId: string)
    | LEAVE_ROOM
    | Unrecognised(actionName: string)

  const initialState := RoomState(None, [], [], [])

  /** `findIndex` of the first peer whose `id` is `peerId`. */
  function FindPeerIndex(peers: seq<PeerInfo>, peerId: string): int
  {
    FindIndex(peers, (p: PeerInfo) => p.id == Some(peerId))
  }

  /** `find` of the first producer with id `producerId`. */
  function FindProducer(producers: seq<Producer>, producerId: string): Option<Producer>
  {
    Find(producers, (p: Producer) => p.id == producerId)
  }

  /** `find` of the first consumer with id `consumerId`. */
  function FindConsumer(consumers: seq<Consumer>, consumerId: string): Option<Consumer>
  {
    Find(consumers, (c: Consumer) => c.id == consumerId)
  }

  /** The peer with the flag that `actionType` selects set to `action`; an unknown type changes nothing. */
  function SetPeerFlag(peer: PeerInfo, actionType: PeerActionType, action: bool): PeerInfo
  {
    match actionType
    case PeerVideo => peer.(peerVideo := action)
    case PeerAudio => peer.(peerAudio := action)
    case ScreenShare => peer.(peerScreenShare := action)
    case RaiseHand => peer.(peerRaisedHand := action)
    case Rec => peer.(peerScreenRecord := action)
    case OtherAction(_) => peer
  }

  function ProducerIdIsNot(producerId: string): Producer -> bool
  {
    (p: Producer) => p.id != producerId
  }

  function ConsumerIdIsNot(consumerId: string): Consumer -> bool
  {
    (c: Consumer) => c.id != consumerId
  }

  /** `peer.id !== peerId`, where either side may be `undefined`. */
  function PeerIdIsNot(peerId: Option<string>): PeerInfo -> bool
  {
    (p: PeerInfo) => p.id != peerId
  }

  /** `filter` keeping the producers whose id is not `producerId`. */
  function WithoutProducer(producers: seq<Producer>, producerId: string): seq<Producer>
  {
    Filter(producers, ProducerIdIsNot(producerId))
  }

  /** `filter` keeping the consumers whose id is not `consumerId`. */
  function WithoutConsumer(consumers: seq<Consumer>, consumerId: string): seq<Consumer>
  {
    Filter(consumers, ConsumerIdIsNot(consumerId))
  }

  /** `filter` keeping the peers whose id is not `peerId`. */
  function WithoutPeer(peers: seq<PeerInfo>, peerId: Option<string>): seq<PeerInfo>
  {
    Filter(peers, PeerIdIsNot(peerId))
  }

  /** `consumer?.appData.peerId`: `undefined` when no consumer was found. */
  function OwnerOf(consumer: Option<Consumer>): (owner: Option<string>)
    ensures owner.Some? <==> consumer.Some?
    ensures consumer.Some? ==> owner.value == consumer.value.peerId
  {
    match consumer
    case None => None
    case Some(c) => Some(c.peerId)
  }

  /** The auth peer with the flag a paused or resumed producer of type `mediaType` stands for set to `on`. */
  function SetMediaFlag(authPeer: PeerInfo, mediaType: MediaType, on: bool): PeerInfo
  {
    match mediaType
    case VIDEO => authPeer.(peerVideo := on)
    case AUDIO => authPeer.(peerAudio := on)
    case OtherMedia(_) => authPeer
  }

  /** PAUSE_PRODUCER (`on` false) and RESUME_PRODUCER (`on` true). */
  function ToggleProducer(state: RoomState, producerId: string, on: bool): RoomState
  {
    var producer := FindProducer(state.producers, producerId);
    if state.authPeer.None? || producer.None? then state
    else state.(authPeer := Some(SetMediaFlag(state.authPeer.value, producer.value.mediaType, on)))
  }

  /**
   * REMOVE_CONSUMER: the peers whose id is `appData.peerId` of the consumer
   * found go with it. Without such a consumer the peers are compared with
   * `undefined`, so the peers without an id go.
   */
  function RemoveConsumer(state: RoomState, consumerId: string): RoomState
  {
    var consumer := FindConsumer(state.consumers, consumerId);
    var newConsumers := WithoutConsumer(state.consumers, consumerId);
    var peers := WithoutPeer(state.peers, OwnerOf(consumer));
    state.(peers := peers, consumers := newConsumers)
  }

  function Reducer(state: RoomState, action: RoomStateAction): RoomState
  {
    match action
    case SET_AUTH_PEER(authPeer) => state.(authPeer := authPeer)
    case ADD_PRODUCER(producer) => state.(producers := state.producers + [producer])
    case UPDATE_PEER(peerId, actionType, value) =>
      var peerIndex := FindPeerIndex(state.peers, peerId);
      if peerIndex != -1
      then state.(peers := state.peers[peerIndex := SetPeerFlag(state.peers[peerIndex], actionType, value)])
      else state
    case REMOVE_PRODUCER(producerId) =>
      state.(producers := WithoutProducer(state.producers, producerId))
    case PAUSE_PRODUCER(producerId) => ToggleProducer(state, producerId, false)
    case RESUME_PRODUCER(producerId) => ToggleProducer(state, producerId, true)
    case ADD_CONSUMER(consumer) => state.(consumers := state.consumers + [consumer])
    case REMOVE_CONSUMER(consumerId) => RemoveConsumer(state, consumerId)
    case ADD_PEER(peer) =>
      if exists j :: 0 <= j < |state.peers| && state.peers[j].id == peer.id then state
      else state.(peers := state.peers + [peer])
    case REMOVE_PEER(peerId) =>
      state.(peers := WithoutPeer(state.peers, Some(peerId)))
    case LEAVE_ROOM => initialState
    case Unrecognised(_) => state
  }

  // ---------------------------------------------------------------------------
  // Properties of the reducer
  // ---------------------------------------------------------------------------

  /** No two peers share an id. */
  ghost predicate UniquePeerIds(peers: seq<PeerInfo>)
  {
    forall i, j :: 0 <= i < j < |peers| ==> peers[i].id != peers[j].id
  }

  /** Removing peers by id keeps distinct peer ids distinct. */
  lemma WithoutPeerKeepsIdsUnique(peers: seq<PeerInfo>, peerId: Option<string>)
    requires UniquePeerIds(peers)
    ensures UniquePeerIds(WithoutPeer(peers, peerId))
  {
    FilterIsSubsequence(peers, PeerIdIsNot(peerId));
    SubsequenceKeepsKeysDistinct(WithoutPeer(peers, peerId), peers, (p: PeerInfo) => p.id);
  }

  /** ADD_PEER: a known id leaves the state as it is; a new peer goes to the end of `peers`, nothing else changes. */
  lemma AddPeerCase(state: RoomState, peer: PeerInfo)
    ensures (exists j :: 0 <= j < |state.peers| && state.peers[j].id == peer.id) ==> Reducer(state, ADD_PEER(peer)) == state
    ensures (forall j :: 0 <= j < |state.peers| ==> state.peers[j].id != peer.id) ==>
      Reducer(state, ADD_PEER(peer)) == state.(peers := state.peers + [peer])
    ensures UniquePeerIds(state.peers) ==> UniquePeerIds(Reducer(state, ADD_PEER(peer)).peers)
  {
  }

  /** ADD_PEER is idempotent. */
  lemma AddPeerIdempotent(state: RoomState, peer: PeerInfo)
    ensures Reducer(Reducer(state, ADD_PEER(peer)), ADD_PEER(peer)) == Reducer(state, ADD_PEER(peer))
  {
    var once := Reducer(state, ADD_PEER(peer));
    if forall j :: 0 <= j < |state.peers| ==> state.peers[j].id != peer.id {
      assert once.peers[|state.peers|].id == peer.id;
    }
  }

  /** ADD_PRODUCER and ADD_CONSUMER append their payload and leave every other field unchanged. */
  lemma AddProducerAndConsumerCases(state: RoomState, producer: Producer, consumer: Consumer)
    ensures Reducer(state, ADD_PRODUCER(producer)) == state.(producers := state.producers + [producer])
    ensures Reducer(state, ADD_CONSUMER(consumer)) == state.(consumers := state.consumers + [consumer])
  {
  }

  /** What each of the three removing actions filters, and that it leaves the other fields alone. */
  lemma RemovingActions(state: RoomState, id: string)
    ensures Reducer(state, REMOVE_PRODUCER(id)) == state.(producers := WithoutProducer(state.producers, id))
    ensures Reducer(state, REMOVE_PEER(id)) == state.(peers := WithoutPeer(state.peers, Some(id)))
    ensures Reducer(state, REMOVE_CONSUMER(id)) == RemoveConsumer(state, id)
  {
  }

  /** REMOVE_PRODUCER removes every producer with that id, keeps the rest in order, and changes nothing else. */
  lemma RemoveProducerCase(state: RoomState, producerId: string)
    ensures var r := Reducer(state, REMOVE_PRODUCER(producerId));
      && r.authPeer == state.authPeer && r.consumers == state.consumers && r.peers == state.peers
      && (forall p :: p in r.producers <==> p in state.producers && p.id != producerId)
      && (forall p: Producer :: p.id != producerId ==> multiset(r.producers)[p] == multiset(state.producers)[p])
      && IsSubsequence(r.producers, state.producers)
  {
    RemovingActions(state, producerId);
    var keep := ProducerIdIsNot(producerId);
    FilterLaws(state.producers, keep);
    forall p: Producer | p.id != producerId
      ensures multiset(WithoutProducer(state.producers, producerId))[p] == multiset(state.producers)[p]
    {
      assert keep(p);
    }
  }

  /** REMOVE_PEER removes every peer with that id, keeps the rest in order, and changes nothing else. */
  lemma RemovePeerCase(state: RoomState, peerId: string)
    ensures var r := Reducer(state, REMOVE_PEER(peerId));
      && r.authPeer == state.authPeer && r.producers == state.producers && r.consumers == state.consumers
      && (forall p :: p in r.peers <==> p in state.peers && p.id != Some(peerId))
      && (forall p: PeerInfo :: p.id != Some(peerId) ==> multiset(r.peers)[p] == multiset(state.peers)[p])
      && IsSubsequence(r.peers, state.peers)
  {
    RemovingActions(state, peerId);
    var keep := PeerIdIsNot(Some(peerId));
    FilterLaws(state.peers, keep);
    forall p: PeerInfo | p.id != Some(peerId)
      ensures multiset(WithoutPeer(state.peers, Some(peerId)))[p] == multiset(state.peers)[p]
    {
      assert keep(p);
    }
  }

  /** The consumers REMOVE_CONSUMER keeps: every one with another id, with its multiplicity and order. */
  lemma RemoveConsumerConsumers(state: RoomState, consumerId: string)
    ensures var r := RemoveConsumer(state, consumerId);
      && (forall c :: c in r.consumers <==> c in state.consumers && c.id != consumerId)
      && (forall c: Consumer :: c.id != consumerId ==> multiset(r.consumers)[c] == multiset(state.consumers)[c])
      && IsSubsequence(r.consumers, state.consumers)
      && (FindConsumer(state.consumers, consumerId).None? ==> r.consumers == state.consumers)
  {
    var keep := ConsumerIdIsNot(consumerId);
    FilterLaws(state.consumers, keep);
    forall c: Consumer | c.id != consumerId
      ensures multiset(RemoveConsumer(state, consumerId).consumers)[c] == multiset(state.consumers)[c]
    {
      assert keep(c);
    }
    if FindConsumer(state.consumers, consumerId).None? {
      assert forall i :: 0 <= i < |state.consumers| ==> keep(state.consumers[i]);
    }
  }

  /** The peers REMOVE_CONSUMER keeps: every one whose id differs from `owner`, with its multiplicity and order. */
  lemma RemoveConsumerPeers(state: RoomState, consumerId: string, owner: Option<string>)
    requires owner == OwnerOf(FindConsumer(state.consumers, consumerId))
    ensures var r := RemoveConsumer(state, consumerId);
      && (forall p :: p in r.peers <==> p in state.peers && p.id != owner)
      && (forall p: PeerInfo :: p.id != owner ==> multiset(r.peers)[p] == multiset(state.peers)[p])
      && IsSubsequence(r.peers, state.peers)
      && ((forall i :: 0 <= i < |state.peers| ==> state.peers[i].id != owner) ==> r.peers == state.peers)
  {
    var keep := PeerIdIsNot(owner);
    FilterLaws(state.peers, keep);
    forall p: PeerInfo | p.id != owner
      ensures multiset(RemoveConsumer(state, consumerId).peers)[p] == multiset(state.peers)[p]
    {
      assert keep(p);
    }
    if forall i :: 0 <= i < |state.peers| ==> state.peers[i].id != owner {
      assert forall i :: 0 <= i < |state.peers| ==> keep(state.peers[i]);
    }
  }

  /**
   * REMOVE_CONSUMER removes the consumers with that id and every peer whose id
   * is the `appData.peerId` of the first such consumer. When there is none, the
   * consumers stay and the peers that go are those without an id.
   */
  lemma RemoveConsumerCase(state: RoomState, consumerId: string)
    ensures Reducer(state, REMOVE_CONSUMER(consumerId)) == RemoveConsumer(state, consumerId)
    ensures var r := RemoveConsumer(state, consumerId);
      && r.authPeer == state.authPeer && r.producers == state.producers
      && (forall c :: c in r.consumers <==> c in state.consumers && c.id != consumerId)
      && (forall c: Consumer :: c.id != consumerId ==> multiset(r.consumers)[c] == multiset(state.consumers)[c])
      && IsSubsequence(r.consumers, state.consumers)
    ensures var r := RemoveConsumer(state, consumerId);
      var owner := OwnerOf(FindConsumer(state.consumers, consumerId));
      && (forall p :: p in r.peers <==> p in state.peers && p.id != owner)
      && (forall p: PeerInfo :: p.id != owner ==> multiset(r.peers)[p] == multiset(state.peers)[p])
      && IsSubsequence(r.peers, state.peers)
    ensures FindConsumer(state.consumers, consumerId).None? ==>
      var r := RemoveConsumer(state, consumerId);
      && r.consumers == state.consumers
      && (forall p :: p in r.peers <==> p in state.peers && p.id.Some?)
      && ((forall i :: 0 <= i < |state.peers| ==> state.peers[i].id.Some?) ==> r == state)
  {
    var owner := OwnerOf(FindConsumer(state.consumers, consumerId));
    RemovingActions(state, consumerId);
    RemoveConsumerConsumers(state, consumerId);
    RemoveConsumerPeers(state, consumerId, owner);
  }

  /** SetPeerFlag changes the selected flag and no other field. */
  lemma SetPeerFlagChangesOneFlag(peer: PeerInfo, actionType: PeerActionType, action: bool)
    ensures var q := SetPeerFlag(peer, actionType, action);
      && q.id == peer.id && q.userAgent == peer.userAgent && q.channelPassword == peer.channelPassword
      && q.peerName == peer.peerName && q.peerGender == peer.peerGender && q.avatar == peer.avatar
      && q.peerVideo == (if actionType == PeerVideo then action else peer.peerVideo)
      && q.peerAudio == (if actionType == PeerAudio then action else peer.peerAudio)
      && q.peerScreenShare == (if actionType == ScreenShare then action else peer.peerScreenShare)
      && q.peerRaisedHand == (if actionType == RaiseHand then action else peer.peerRaisedHand)
      && q.peerScreenRecord == (if actionType == Rec then action else peer.peerScreenRecord)
  {
    match actionType
    case PeerVideo =>
    case PeerAudio =>
    case ScreenShare =>
    case RaiseHand =>
    case Rec =>
    case OtherAction(_) =>
  }

  /**
   * UPDATE_PEER changes only the flag selected by the action type, only on the
   * first peer with that id; an unknown id leaves the state as it is.
   */
  lemma UpdatePeerCase(state: RoomState, peerId: string, actionType: PeerActionType, action: bool)
    ensures var r := Reducer(state, UPDATE_PEER(peerId, actionType, action));
      && r.authPeer == state.authPeer && r.producers == state.producers && r.consumers == state.consumers
      && |r.peers| == |state.peers|
      && ((forall j :: 0 <= j < |state.peers| ==> state.peers[j].id != Some(peerId)) ==> r == state)
      && (forall i :: 0 <= i < |state.peers| ==>
            if state.peers[i].id == Some(peerId) && (forall j :: 0 <= j < i ==> state.peers[j].id != Some(peerId))
            then r.peers[i] == SetPeerFlag(state.peers[i], actionType, action)
            else r.peers[i] == state.peers[i])
  {
    var k := FindPeerIndex(state.peers, peerId);
    forall i | 0 <= i < |state.peers| && state.peers[i].id == Some(peerId) && (forall j :: 0 <= j < i ==> state.peers[j].id != Some(peerId))
      ensures i == k
    {
    }
  }

  /**
   * PAUSE_PRODUCER sets the auth peer's video or audio flag to false according to
   * the media type of the first producer with that id; RESUME_PRODUCER sets it
   * to true. Without an auth peer or such a producer nothing changes.
   */
  lemma PauseResumeProducerCase(state: RoomState, producerId: string, on: bool)
    ensures var r := Reducer(state, if on then RESUME_PRODUCER(producerId) else PAUSE_PRODUCER(producerId));
      && r.producers == state.producers && r.consumers == state.consumers && r.peers == state.peers
      && (state.authPeer.None? || FindProducer(state.producers, producerId).None? ==> r == state)
      && (state.authPeer.Some? && FindProducer(state.producers, producerId).Some? ==>
            var mediaType := FindProducer(state.producers, producerId).value.mediaType;
            var before := state.authPeer.value;
            r.authPeer == Some(before.(
              peerVideo := if mediaType == VIDEO then on else before.peerVideo,
              peerAudio := if mediaType == AUDIO then on else before.peerAudio)))
  {
  }

  /** LEAVE_ROOM returns the initial state; an unrecognised action returns the state unchanged. */
  lemma LeaveAndUnknownCases(state: RoomState, name: string)
    ensures Reducer(state, LEAVE_ROOM) == RoomState(None, [], [], [])
    ensures Reducer(state, Unrecognised(name)) == state
  {
  }

  /** Each field changes only under the actions that are about it. */
  lemma ReducerFrame(state: RoomState, action: RoomStateAction)
    ensures var r := Reducer(state, action);
      && (r.authPeer != state.authPeer ==> action.SET_AUTH_PEER? || action.PAUSE_PRODUCER? || action.RESUME_PRODUCER? || action.LEAVE_ROOM?)
      && (r.producers != state.producers ==> action.ADD_PRODUCER? || action.REMOVE_PRODUCER? || action.LEAVE_ROOM?)
      && (r.consumers != state.consumers ==> action.ADD_CONSUMER? || action.REMOVE_CONSUMER? || action.LEAVE_ROOM?)
      && (r.peers != state.peers ==>
            action.UPDATE_PEER? || action.REMOVE_CONSUMER? || action.ADD_PEER? || action.REMOVE_PEER? || action.LEAVE_ROOM?)
  {
  }

  /** Every action keeps the peer ids pairwise distinct. */
  lemma ReducerKeepsPeerIdsUnique(state: RoomState, action: RoomStateAction)
    requires UniquePeerIds(state.peers)
    ensures UniquePeerIds(Reducer(state, action).peers)
  {
    match action
    case REMOVE_PEER(peerId) => WithoutPeerKeepsIdsUnique(state.peers, Some(peerId));
    case REMOVE_CONSUMER(consumerId) =>
      WithoutPeerKeepsIdsUnique(state.peers, OwnerOf(FindConsumer(state.consumers, consumerId)));
    case UPDATE_PEER(peerId, actionType, value) =>
      UpdatePeerCase(state, peerId, actionType, value);
      var r := Reducer(state, action);
      forall i | 0 <= i < |r.peers|
        ensures r.peers[i].id == state.peers[i].id
      {
        SetPeerFlagChangesOneFlag(state.peers[i], actionType, value);
      }
    case _ =>
  }
}
