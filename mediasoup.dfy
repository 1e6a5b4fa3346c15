/**
 * The media engine (mediasoup) as the server code sees it: every object is an
 * opaque record identified by its `id`, and every engine method call is a value
 * of `EngineCall`. What the engine answers to a call is a parameter of the
 * modelled operation, never something the model decides.
 */
module Mediasoup {

  /** A JSON payload the server only passes along (RTP/ICE/DTLS parameters, appData). */
  datatype Opaque = Opaque(json: string)

  datatype MediaKind = Audio | Video

  /** `DtlsState` of a WebRTC transport. */
  datatype DtlsState = New | Connecting | Connected | Failed | Closed

  datatype Worker = Worker(pid: int)

  datatype Router = Router(id: string, rtpCapabilities: Opaque)

  /** One element of the worker pool: a worker and the router it created at start-up. */
  datatype MediasoupWorker = MediasoupWorker(worker: Worker, router: Router)

  datatype WebRtcTransport = WebRtcTransport(
    id: string,
    iceParameters: Opaque,
    iceCandidates: Opaque,
    dtlsParameters: Opaque)

  /** The `{kind, rtpParameters, appData}` options of `transport.produce`. */
  datatype ProducerOptions = ProducerOptions(kind: MediaKind, rtpParameters: Opaque, appData: Opaque)

  datatype Producer = Producer(id: string, kind: MediaKind, rtpParameters: Opaque, appData: Opaque)

  datatype Consumer = Consumer(id: string, producerId: string, kind: MediaKind, rtpParameters: Opaque, appData: Opaque)

  /** The error a rejected engine call rejects with. */
  datatype EngineError = EngineError(message: string)

  /** A method invoked on an engine object. */
  datatype EngineCall =
    | ConnectTransport(transportId: string, dtlsParameters: Opaque)
    | Produce(transportId: string, options: ProducerOptions)
    | CloseTransport(transportId: string)
}
