/**
 * The media engine (mediasoup) as an opaque collaborator.
 *
 * The server only ever sees handles that the engine hands back: a router,
 * transports, producers and consumers.  Each handle is modelled as a record
 * holding the fresh id the engine gave it and the flags the server's code
 * changes through it (`connect`, `resume`, `close`).  Everything the engine
 * computes (capabilities, ICE/DTLS/RTP parameters) is an opaque descriptor.
 * Whether an engine call succeeds is not decided here: every engine call is
 * given its answer as a parameter, so both outcomes are always modelled.
 */
module Engine {
  import opened Wrappers

  /** Engine-issued identifiers; the server state hands out fresh ones. */
  type Id = nat

  /** Opaque descriptors produced and consumed by the engine. */
  datatype RtpCapabilities = RtpCapabilities(descriptor: string)
  datatype RtpParameters = RtpParameters(descriptor: string)
  datatype DtlsParameters = DtlsParameters(descriptor: string)

  /** What a new WebRTC transport reports about itself (relayed to the client). */
  datatype TransportParams = TransportParams(
    iceParameters: string,
    iceCandidates: string,
    dtlsParameters: DtlsParameters)

  /** DTLS states a transport reports through its `dtlsstatechange` event. */
  datatype DtlsState = New | Connecting | Connected | Failed | Closed

  datatype Router = Router(id: Id, rtpCapabilities: RtpCapabilities)

  /** A WebRTC transport; `remoteDtls` is set once the client's DTLS parameters were applied by `connect`. */
  datatype Transport = Transport(
    id: Id,
    params: TransportParams,
    remoteDtls: Option<DtlsParameters>,
    closed: bool)

  /** A producer keeps the kind string the client sent and the transport it was produced on. */
  datatype Producer = Producer(
    id: Id,
    kind: string,
    transportId: Id,
    rtpParameters: RtpParameters,
    closed: bool)

  /** A consumer of one producer, on one transport; the engine copies the producer's kind. */
  datatype Consumer = Consumer(
    id: Id,
    producerId: Id,
    kind: string,
    transportId: Id,
    rtpParameters: RtpParameters,
    paused: bool,
    closed: bool)

  /** The engine's answer to a creation call: the created object's data, or a rejection. */
  datatype Answer<T> = Granted(value: T) | Denied(reason: string)

  /** The engine's answer to a call that only succeeds or fails (`connect`, `produce`, `resume`). */
  datatype Verdict = Accepted | Refused(reason: string)

  /** The router's `canConsume(producerId, rtpCapabilities)`, left uninterpreted. */
  type CanConsume = (Id, RtpCapabilities) -> bool
}
