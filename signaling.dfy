/**
 * The signalling state machine of server.js.
 *
 * The server keeps one global record of optional slots (server.js:25-31):
 * the router, the producer (send) and consumer (receive) transports, the
 * video and audio producers and the video and audio consumers.  Every socket
 * event handler, and every engine event listener the handlers register, is a
 * function from the record before the event to the record after it plus what
 * the client observes: the message sent back, if any, and the error the async
 * handler throws, if any.
 *
 * Reading a property of a slot that is still `undefined` is a TypeError in
 * the source; it is the fault `Undefined(slot)` here.  A rejected engine call
 * is the fault `Rejected(reason)`.
 */
module Signaling {
  import opened Wrappers
  import opened Engine

  /** The seven module-level slots (server.js:25-31). */
  datatype Slot =
    | RouterSlot
    | ProducerTransportSlot
    | ConsumerTransportSlot
    | VideoProducerSlot
    | AudioProducerSlot
    | VideoConsumerSlot
    | AudioConsumerSlot

  /** Why a handler stopped early. */
  datatype Fault =
    | Undefined(slot: Slot)      // a property read on an unset slot (TypeError)
    | Rejected(reason: string)   // the engine rejected the call

  /** The description of one consumer that `consume` sends to the client. */
  datatype ConsumerParams = ConsumerParams(id: Id, producerId: Id, kind: string, rtpParameters: RtpParameters)

  /** Messages the server sends to one client (emits and callback arguments). */
  datatype Reply =
    | ConnectionSuccess(socketId: string, existsProducer: bool)
    | RtpCapabilitiesReply(rtpCapabilities: RtpCapabilities)
    | TransportCreated(id: Id, transportParams: TransportParams)
    | ProducerCreated(producerId: Id)
    | ConsumersCreated(params: ConsumerParams, audioParams: ConsumerParams)
    | ErrorReply(error: Fault)   // `{ params: { error } }`

  /** What one event leaves behind besides the new state. */
  datatype Outcome = Outcome(sent: Option<Reply>, thrown: Option<Fault>)

  /** Nothing sent, nothing thrown. */
  const Quiet := Outcome(None, None)

  function Sends(m: Reply): Outcome { Outcome(Some(m), None) }

  function Throws(f: Fault): Outcome { Outcome(None, Some(f)) }

  /**
   * The closures the handlers register with `.on(...)` on engine handles,
   * each tagged with the id of the handle it was registered on.
   */
  datatype Listener =
    | TransportDtlsStateChange(owner: Id)      // server.js:255-259
    | VideoProducerTransportClose(owner: Id)   // server.js:124-127
    | AudioProducerTransportClose(owner: Id)   // server.js:140-143
    | VideoConsumerTransportClose(owner: Id)   // server.js:173-175, logs only
    | VideoConsumerProducerClose(owner: Id)    // server.js:177-179, logs only
    | AudioConsumerTransportClose(owner: Id)   // server.js:195-198
    | AudioConsumerProducerClose(owner: Id)    // server.js:199-202

  /** The global record, the registered listeners and the engine's next fresh id. */
  datatype ServerState = ServerState(
    router: Option<Router>,
    producerTransport: Option<Transport>,
    consumerTransport: Option<Transport>,
    producer: Option<Producer>,
    audioProducer: Option<Producer>,
    consumer: Option<Consumer>,
    audioConsumer: Option<Consumer>,
    listeners: set<Listener>,
    nextId: Id)

  datatype Transition = Transition(state: ServerState, outcome: Outcome)

  /** Every slot `undefined`, as the server starts. */
  function Init(): ServerState {
    ServerState(None, None, None, None, None, None, None, {}, 0)
  }

  // ---------------------------------------------------------------------
  // Slot selectors: the source duplicates each handler per direction/kind.

  function TransportSlot(sender: bool): Slot {
    if sender then ProducerTransportSlot else ConsumerTransportSlot
  }

  function TransportIn(s: ServerState, sender: bool): Option<Transport> {
    if sender then s.producerTransport else s.consumerTransport
  }

  function ProducerSlot(video: bool): Slot {
    if video then VideoProducerSlot else AudioProducerSlot
  }

  function ProducerIn(s: ServerState, video: bool): Option<Producer> {
    if video then s.producer else s.audioProducer
  }

  function ConsumerSlot(video: bool): Slot {
    if video then VideoConsumerSlot else AudioConsumerSlot
  }

  function ConsumerIn(s: ServerState, video: bool): Option<Consumer> {
    if video then s.consumer else s.audioConsumer
  }

  /** `t` differs from `s` at most in the slots `touched`. */
  predicate OnlyTouches(s: ServerState, t: ServerState, touched: set<Slot>) {
    && (RouterSlot !in touched ==> t.router == s.router)
    && (ProducerTransportSlot !in touched ==> t.producerTransport == s.producerTransport)
    && (ConsumerTransportSlot !in touched ==> t.consumerTransport == s.consumerTransport)
    && (VideoProducerSlot !in touched ==> t.producer == s.producer)
    && (AudioProducerSlot !in touched ==> t.audioProducer == s.audioProducer)
    && (VideoConsumerSlot !in touched ==> t.consumer == s.consumer)
    && (AudioConsumerSlot !in touched ==> t.audioConsumer == s.audioConsumer)
  }

  // ---------------------------------------------------------------------
  // The invariant every reachable state keeps.

  /** Every id in the record was issued before `nextId`, so a new one is fresh. */
  predicate IdsIssued(s: ServerState) {
    && (s.router.Some? ==> s.router.value.id < s.nextId)
    && (s.producerTransport.Some? ==> s.producerTransport.value.id < s.nextId)
    && (s.consumerTransport.Some? ==> s.consumerTransport.value.id < s.nextId)
    && (s.producer.Some? ==> s.producer.value.id < s.nextId)
    && (s.audioProducer.Some? ==> s.audioProducer.value.id < s.nextId)
    && (s.consumer.Some? ==> s.consumer.value.id < s.nextId)
    && (s.audioConsumer.Some? ==> s.audioConsumer.value.id < s.nextId)
    && (forall l :: l in s.listeners ==> l.owner < s.nextId)
  }

  /** The two slots of one role never hold the same handle. */
  predicate DistinctHandles(s: ServerState) {
    && (s.producerTransport.Some? && s.consumerTransport.Some? ==>
          s.producerTransport.value.id != s.consumerTransport.value.id)
    && (s.producer.Some? && s.audioProducer.Some? ==> s.producer.value.id != s.audioProducer.value.id)
    && (s.consumer.Some? && s.audioConsumer.Some? ==> s.consumer.value.id != s.audioConsumer.value.id)
  }

  /** The handle in each slot still carries the listeners registered when it was stored. */
  predicate ListenersRegistered(s: ServerState) {
    && (s.producerTransport.Some? ==> TransportDtlsStateChange(s.producerTransport.value.id) in s.listeners)
    && (s.consumerTransport.Some? ==> TransportDtlsStateChange(s.consumerTransport.value.id) in s.listeners)
    && (s.producer.Some? ==> VideoProducerTransportClose(s.producer.value.id) in s.listeners)
    && (s.audioProducer.Some? ==> AudioProducerTransportClose(s.audioProducer.value.id) in s.listeners)
    && (s.consumer.Some? ==>
          && VideoConsumerTransportClose(s.consumer.value.id) in s.listeners
          && VideoConsumerProducerClose(s.consumer.value.id) in s.listeners)
    && (s.audioConsumer.Some? ==>
          && AudioConsumerTransportClose(s.audioConsumer.value.id) in s.listeners
          && AudioConsumerProducerClose(s.audioConsumer.value.id) in s.listeners)
  }

  /** A listener that dereferences a slot exists only once that slot has been set. */
  predicate ListenerSlotsSet(s: ServerState) {
    forall l :: l in s.listeners ==>
      && (l.VideoProducerTransportClose? ==> s.producer.Some?)
      && (l.AudioProducerTransportClose? ==> s.audioProducer.Some?)
      && (l.AudioConsumerTransportClose? || l.AudioConsumerProducerClose? ==> s.audioConsumer.Some?)
  }

  predicate Valid(s: ServerState) {
    && IdsIssued(s)
    && DistinctHandles(s)
    && (s.producer.Some? ==> s.producer.value.kind == "video")
    && (s.audioProducer.Some? ==> s.audioProducer.value.kind != "video")
    && ListenersRegistered(s)
    && ListenerSlotsSet(s)
  }

  // ---------------------------------------------------------------------
  // Socket event handlers.

  /**
   * `connection` (server.js:68-73): greets the socket; `existsProducer` is
   * whether the video producer slot is set.  The audio producer is not looked at.
   */
  function HandleConnection(s: ServerState, socketId: string): (r: Transition)
    ensures r.state == s
    ensures r.outcome.thrown.None? && r.outcome.sent.Some? && r.outcome.sent.value.ConnectionSuccess?
    ensures r.outcome.sent.value.socketId == socketId
    ensures r.outcome.sent.value.existsProducer <==> s.producer.Some?
  {
    Transition(s, Sends(ConnectionSuccess(socketId, s.producer.Some?)))
  }

  /**
   * `createRoom` and `getRtpCapabilities` (server.js:79-97): the router is
   * created only while the slot is unset; either way the router's
   * capabilities are sent back.  A rejected creation throws before the
   * callback runs.
   */
  function HandleCreateRoom(s: ServerState, answer: Answer<RtpCapabilities>): (r: Transition)
    ensures OnlyTouches(s, r.state, {RouterSlot})
    ensures s.router.Some? ==> r.state == s
    ensures s.router.None? && answer.Granted? ==> r.state.router == Some(Router(s.nextId, answer.value))
    ensures r.state.router.Some? <==> r.outcome.thrown.None?
    ensures r.state.router.Some? ==>
              r.outcome == Sends(RtpCapabilitiesReply(r.state.router.value.rtpCapabilities))
    ensures r.state.router.None? ==> answer.Denied? && r.outcome == Throws(Rejected(answer.reason))
    ensures r.state.listeners == s.listeners && r.state.nextId >= s.nextId
    ensures Valid(s) ==> Valid(r.state)
  {
    if s.router.Some? then
      Transition(s, Sends(RtpCapabilitiesReply(s.router.value.rtpCapabilities)))
    else
      match answer
      case Denied(reason) => Transition(s, Throws(Rejected(reason)))
      case Granted(caps) =>
        Transition(s.(router := Some(Router(s.nextId, caps)), nextId := s.nextId + 1),
                   Sends(RtpCapabilitiesReply(caps)))
  }

  function WithTransport(s: ServerState, sender: bool, t: Option<Transport>): ServerState {
    if sender then s.(producerTransport := t) else s.(consumerTransport := t)
  }

  /**
   * `createWebRtcTransport` (server.js:99-105 with the helper at 234-285):
   * asks the router for a transport, registers its DTLS listener and sends
   * its parameters back.  On any error the helper reports `params.error`
   * and returns `undefined`, which the handler still assigns: the targeted
   * slot is cleared, never left at its old value.
   */
  function HandleCreateWebRtcTransport(s: ServerState, sender: bool, answer: Answer<TransportParams>): (r: Transition)
    ensures OnlyTouches(s, r.state, {TransportSlot(sender)})
    ensures r.outcome.thrown.None? && r.outcome.sent.Some?
    ensures TransportIn(r.state, sender).Some? <==> s.router.Some? && answer.Granted?
    ensures TransportIn(r.state, sender).Some? ==>
              && TransportIn(r.state, sender).value == Transport(s.nextId, answer.value, None, false)
              && r.outcome.sent.value == TransportCreated(s.nextId, answer.value)
    ensures TransportIn(r.state, sender).None? ==>
              r.outcome.sent.value == ErrorReply(if s.router.None? then Undefined(RouterSlot) else Rejected(answer.reason))
    ensures r.state.nextId >= s.nextId
    ensures r.state.listeners == s.listeners + (if s.router.Some? && answer.Granted? then {TransportDtlsStateChange(s.nextId)} else {})
    ensures Valid(s) ==> Valid(r.state)
  {
    if s.router.None? then
      Transition(WithTransport(s, sender, None), Sends(ErrorReply(Undefined(RouterSlot))))
    else
      match answer
      case Denied(reason) =>
        Transition(WithTransport(s, sender, None), Sends(ErrorReply(Rejected(reason))))
      case Granted(params) =>
        var t := Transport(s.nextId, params, None, false);
        var registered := s.(listeners := s.listeners + {TransportDtlsStateChange(t.id)}, nextId := s.nextId + 1);
        Transition(WithTransport(registered, sender, Some(t)), Sends(TransportCreated(t.id, params)))
  }

  /**
   * `transport-connect` (sender true, server.js:107-110) and
   * `transport-recv-connect` (sender false, server.js:152-155): applies the
   * client's DTLS parameters to the transport in the slot.  No reply is
   * sent; an unset slot or a rejected `connect` makes the handler throw.
   */
  function HandleConnect(s: ServerState, sender: bool, dtls: DtlsParameters, verdict: Verdict): (r: Transition)
    ensures OnlyTouches(s, r.state, {TransportSlot(sender)})
    ensures r.outcome.sent.None?
    ensures TransportIn(s, sender).None? ==> r == Transition(s, Throws(Undefined(TransportSlot(sender))))
    ensures TransportIn(s, sender).Some? && verdict.Refused? ==> r == Transition(s, Throws(Rejected(verdict.reason)))
    ensures TransportIn(s, sender).Some? && verdict.Accepted? ==>
              && r.outcome == Quiet
              && TransportIn(r.state, sender) == Some(TransportIn(s, sender).value.(remoteDtls := Some(dtls)))
    ensures r.state.listeners == s.listeners && r.state.nextId == s.nextId
    ensures Valid(s) ==> Valid(r.state)
  {
    match TransportIn(s, sender)
    case None => Transition(s, Throws(Undefined(TransportSlot(sender))))
    case Some(t) =>
      match verdict
      case Refused(reason) => Transition(s, Throws(Rejected(reason)))
      case Accepted => Transition(WithTransport(s, sender, Some(t.(remoteDtls := Some(dtls)))), Quiet)
  }

  /**
   * `transport-produce` (server.js:112-150): kind "video" stores the new
   * producer in `producer`, any other kind in `audioProducer`, replacing
   * whatever was there; the callback gets the stored producer's id.
   */
  function HandleProduce(s: ServerState, kind: string, rtp: RtpParameters, verdict: Verdict): (r: Transition)
    ensures OnlyTouches(s, r.state, {ProducerSlot(kind == "video")})
    ensures s.producerTransport.None? ==> r == Transition(s, Throws(Undefined(ProducerTransportSlot)))
    ensures s.producerTransport.Some? && verdict.Refused? ==> r == Transition(s, Throws(Rejected(verdict.reason)))
    ensures s.producerTransport.Some? && verdict.Accepted? ==>
              && ProducerIn(r.state, kind == "video")
                   == Some(Producer(s.nextId, kind, s.producerTransport.value.id, rtp, false))
              && r.outcome == Sends(ProducerCreated(s.nextId))
    ensures r.state.nextId >= s.nextId
    ensures r.state.listeners == s.listeners +
              (if s.producerTransport.Some? && verdict.Accepted?
               then {if kind == "video" then VideoProducerTransportClose(s.nextId) else AudioProducerTransportClose(s.nextId)}
               else {})
    ensures Valid(s) ==> Valid(r.state)
  {
    match s.producerTransport
    case None => Transition(s, Throws(Undefined(ProducerTransportSlot)))
    case Some(t) =>
      match verdict
      case Refused(reason) => Transition(s, Throws(Rejected(reason)))
      case Accepted =>
        var p := Producer(s.nextId, kind, t.id, rtp, false);
        var next := s.nextId + 1;
        if kind == "video" then
          Transition(s.(producer := Some(p), listeners := s.listeners + {VideoProducerTransportClose(p.id)}, nextId := next),
                     Sends(ProducerCreated(p.id)))
        else
          Transition(s.(audioProducer := Some(p), listeners := s.listeners + {AudioProducerTransportClose(p.id)}, nextId := next),
                     Sends(ProducerCreated(p.id)))
  }

  /** The consumer the engine creates for `consume({ producerId, rtpCapabilities, paused: true })`. */
  function PausedConsumer(id: Id, p: Producer, transportId: Id, rtp: RtpParameters): Consumer {
    Consumer(id, p.id, p.kind, transportId, rtp, true, false)
  }

  function ParamsOf(c: Consumer): ConsumerParams {
    ConsumerParams(c.id, c.producerId, c.kind, c.rtpParameters)
  }

  /** The steps of `consume` up to the video consumer go through, so that consumer is stored. */
  predicate ConsumeStoresVideo(cc: CanConsume, s: ServerState, caps: RtpCapabilities, videoAnswer: Answer<RtpParameters>) {
    && s.router.Some?
    && s.producer.Some?
    && cc(s.producer.value.id, caps)
    && s.consumerTransport.Some?
    && videoAnswer.Granted?
  }

  /** Every step of `consume` that can fail goes through. */
  predicate ConsumeSucceeds(cc: CanConsume, s: ServerState, caps: RtpCapabilities,
                            videoAnswer: Answer<RtpParameters>, audioAnswer: Answer<RtpParameters>)
  {
    && s.router.Some?
    && s.producer.Some?
    && cc(s.producer.value.id, caps)
    && s.consumerTransport.Some?
    && videoAnswer.Granted?
    && s.audioProducer.Some?
    && audioAnswer.Granted?
  }

  /** Storing a fresh video consumer with its two listeners keeps the invariant. */
  lemma StoreVideoConsumerKeepsValid(s: ServerState, video: Consumer)
    ensures Valid(s) && video.id == s.nextId ==>
              Valid(s.(consumer := Some(video),
                       listeners := s.listeners + {VideoConsumerTransportClose(video.id), VideoConsumerProducerClose(video.id)},
                       nextId := s.nextId + 1))
  {
  }

  /** Storing a fresh audio consumer with its two listeners keeps the invariant. */
  lemma StoreAudioConsumerKeepsValid(s: ServerState, audio: Consumer)
    ensures Valid(s) && audio.id == s.nextId ==>
              Valid(s.(audioConsumer := Some(audio),
                       listeners := s.listeners + {AudioConsumerTransportClose(audio.id), AudioConsumerProducerClose(audio.id)},
                       nextId := s.nextId + 1))
  {
  }

  /**
   * `consume` (server.js:157-221).  Only the video producer is checked with
   * `canConsume`; when the check fails nothing changes and no callback is
   * sent.  Otherwise a paused consumer of the video producer and then one of
   * the audio producer are created and stored; every error inside the `try`
   * is reported as `params.error`.  An error after the video consumer was
   * stored leaves it stored.
   */
  function HandleConsume(cc: CanConsume, s: ServerState, caps: RtpCapabilities,
                         videoAnswer: Answer<RtpParameters>, audioAnswer: Answer<RtpParameters>): (r: Transition)
    ensures OnlyTouches(s, r.state, {VideoConsumerSlot, AudioConsumerSlot})
    ensures r.outcome.thrown.None?
    ensures s.router.None? ==> r == Transition(s, Sends(ErrorReply(Undefined(RouterSlot))))
    ensures s.router.Some? && s.producer.None? ==> r == Transition(s, Sends(ErrorReply(Undefined(VideoProducerSlot))))
    ensures s.router.Some? && s.producer.Some? && !cc(s.producer.value.id, caps) ==> r == Transition(s, Quiet)
    ensures s.router.Some? && s.producer.Some? && cc(s.producer.value.id, caps) && s.consumerTransport.None? ==>
              r == Transition(s, Sends(ErrorReply(Undefined(ConsumerTransportSlot))))
    ensures s.router.Some? && s.producer.Some? && cc(s.producer.value.id, caps) && s.consumerTransport.Some? &&
            videoAnswer.Denied? ==>
              r == Transition(s, Sends(ErrorReply(Rejected(videoAnswer.reason))))
    ensures s.router.Some? && s.producer.Some? && cc(s.producer.value.id, caps) && s.consumerTransport.Some? &&
            videoAnswer.Granted? && s.audioProducer.None? ==>
              && r.outcome == Sends(ErrorReply(Undefined(AudioProducerSlot)))
              && r.state.consumer == Some(PausedConsumer(s.nextId, s.producer.value, s.consumerTransport.value.id, videoAnswer.value))
    ensures s.router.Some? && s.producer.Some? && cc(s.producer.value.id, caps) && s.consumerTransport.Some? &&
            videoAnswer.Granted? && s.audioProducer.Some? && audioAnswer.Denied? ==>
              && r.outcome == Sends(ErrorReply(Rejected(audioAnswer.reason)))
              && r.state.consumer == Some(PausedConsumer(s.nextId, s.producer.value, s.consumerTransport.value.id, videoAnswer.value))
    ensures s.router.Some? && s.producer.Some? && cc(s.producer.value.id, caps) &&
            !ConsumeSucceeds(cc, s, caps, videoAnswer, audioAnswer) ==>
              r.outcome.sent.Some? && r.outcome.sent.value.ErrorReply?
    ensures (r.outcome.sent.Some? && r.outcome.sent.value.ConsumersCreated?)
              <==> ConsumeSucceeds(cc, s, caps, videoAnswer, audioAnswer)
    ensures ConsumeSucceeds(cc, s, caps, videoAnswer, audioAnswer) ==>
              && r.state.consumer.Some? && r.state.audioConsumer.Some?
              && r.state.consumer.value.paused && r.state.audioConsumer.value.paused
              && r.state.consumer.value.producerId == s.producer.value.id
              && r.state.audioConsumer.value.producerId == s.audioProducer.value.id
              && r.state.consumer.value.id == s.nextId && r.state.audioConsumer.value.id == s.nextId + 1
              && r.outcome.sent.value == ConsumersCreated(ParamsOf(r.state.consumer.value), ParamsOf(r.state.audioConsumer.value))
    ensures ConsumeSucceeds(cc, s, caps, videoAnswer, audioAnswer) ==>
              && r.state.consumer == Some(PausedConsumer(s.nextId, s.producer.value, s.consumerTransport.value.id, videoAnswer.value))
              && r.state.audioConsumer == Some(PausedConsumer(s.nextId + 1, s.audioProducer.value, s.consumerTransport.value.id, audioAnswer.value))
    ensures r.outcome.sent.Some? && r.outcome.sent.value.ErrorReply? ==> r.state.audioConsumer == s.audioConsumer
    ensures r.state.consumer != s.consumer ==> r.state.consumer.Some? && r.state.consumer.value.paused
    ensures r.state.audioConsumer != s.audioConsumer ==> r.state.audioConsumer.Some? && r.state.audioConsumer.value.paused
    ensures r.state.nextId >= s.nextId
    ensures r.state.listeners == s.listeners +
              (if ConsumeStoresVideo(cc, s, caps, videoAnswer)
               then {VideoConsumerTransportClose(s.nextId), VideoConsumerProducerClose(s.nextId)} else {}) +
              (if ConsumeSucceeds(cc, s, caps, videoAnswer, audioAnswer)
               then {AudioConsumerTransportClose(s.nextId + 1), AudioConsumerProducerClose(s.nextId + 1)} else {})
    ensures Valid(s) ==> Valid(r.state)
  {
    if s.router.None? then Transition(s, Sends(ErrorReply(Undefined(RouterSlot))))
    else if s.producer.None? then Transition(s, Sends(ErrorReply(Undefined(VideoProducerSlot))))
    else if !cc(s.producer.value.id, caps) then Transition(s, Quiet)
    else if s.consumerTransport.None? then Transition(s, Sends(ErrorReply(Undefined(ConsumerTransportSlot))))
    else if videoAnswer.Denied? then Transition(s, Sends(ErrorReply(Rejected(videoAnswer.reason))))
    else
      var transportId := s.consumerTransport.value.id;
      var video := PausedConsumer(s.nextId, s.producer.value, transportId, videoAnswer.value);
      var withVideo := s.(consumer := Some(video),
                          listeners := s.listeners + {VideoConsumerTransportClose(video.id), VideoConsumerProducerClose(video.id)},
                          nextId := s.nextId + 1);
      StoreVideoConsumerKeepsValid(s, video);
      if s.audioProducer.None? then Transition(withVideo, Sends(ErrorReply(Undefined(AudioProducerSlot))))
      else if audioAnswer.Denied? then Transition(withVideo, Sends(ErrorReply(Rejected(audioAnswer.reason))))
      else
        var audio := PausedConsumer(withVideo.nextId, s.audioProducer.value, transportId, audioAnswer.value);
        var withAudio := withVideo.(audioConsumer := Some(audio),
                                    listeners := withVideo.listeners + {AudioConsumerTransportClose(audio.id), AudioConsumerProducerClose(audio.id)},
                                    nextId := withVideo.nextId + 1);
        StoreAudioConsumerKeepsValid(withVideo, audio);
        Transition(withAudio, Sends(ConsumersCreated(ParamsOf(video), ParamsOf(audio))))
  }

  /** `after` is `before`, or `before` with its consumer resumed. */
  predicate ResumedOrSame(before: Option<Consumer>, after: Option<Consumer>) {
    after == before || (before.Some? && after == Some(before.value.(paused := false)))
  }

  /**
   * `consumer-resume` (server.js:223-227): resumes the video consumer and
   * then the audio consumer; an unset slot or a rejected `resume` stops the
   * handler there.  No reply is sent.
   */
  function HandleConsumerResume(s: ServerState, videoVerdict: Verdict, audioVerdict: Verdict): (r: Transition)
    ensures OnlyTouches(s, r.state, {VideoConsumerSlot, AudioConsumerSlot})
    ensures r.state.listeners == s.listeners && r.state.nextId == s.nextId
    ensures r.outcome.sent.None?
    ensures ResumedOrSame(s.consumer, r.state.consumer) && ResumedOrSame(s.audioConsumer, r.state.audioConsumer)
    ensures r.state.audioConsumer != s.audioConsumer ==> r.state.consumer != s.consumer || (s.consumer.Some? && !s.consumer.value.paused)
    ensures s.consumer.None? ==> r == Transition(s, Throws(Undefined(VideoConsumerSlot)))
    ensures videoVerdict.Refused? ==> r.state.consumer == s.consumer
    ensures r.state.consumer != s.consumer ==> videoVerdict.Accepted?
    ensures audioVerdict.Refused? ==> r.state.audioConsumer == s.audioConsumer
    ensures r.state.audioConsumer != s.audioConsumer ==> audioVerdict.Accepted?
    ensures r.outcome == Quiet <==>
              s.consumer.Some? && videoVerdict.Accepted? && s.audioConsumer.Some? && audioVerdict.Accepted?
    ensures r.outcome == Quiet ==> !r.state.consumer.value.paused && !r.state.audioConsumer.value.paused
    ensures s.consumer.Some? && videoVerdict.Refused? ==> r == Transition(s, Throws(Rejected(videoVerdict.reason)))
    ensures s.consumer.Some? && videoVerdict.Accepted? ==> r.state.consumer == Some(s.consumer.value.(paused := false))
    ensures s.consumer.Some? && videoVerdict.Accepted? && s.audioConsumer.None? ==>
              r.outcome == Throws(Undefined(AudioConsumerSlot))
    ensures s.consumer.Some? && videoVerdict.Accepted? && s.audioConsumer.Some? && audioVerdict.Refused? ==>
              r.outcome == Throws(Rejected(audioVerdict.reason)) && r.state.audioConsumer == s.audioConsumer
    ensures s.consumer.Some? && videoVerdict.Accepted? && s.audioConsumer.Some? && audioVerdict.Accepted? ==>
              r.state.audioConsumer == Some(s.audioConsumer.value.(paused := false))
    ensures Valid(s) ==> Valid(r.state)
  {
    match s.consumer
    case None => Transition(s, Throws(Undefined(VideoConsumerSlot)))
    case Some(video) =>
      if videoVerdict.Refused? then Transition(s, Throws(Rejected(videoVerdict.reason)))
      else
        var resumed := s.(consumer := Some(video.(paused := false)));
        match s.audioConsumer
        case None => Transition(resumed, Throws(Undefined(AudioConsumerSlot)))
        case Some(audio) =>
          if audioVerdict.Refused? then Transition(resumed, Throws(Rejected(audioVerdict.reason)))
          else Transition(resumed.(audioConsumer := Some(audio.(paused := false))), Quiet)
  }

  /** `disconnect` (server.js:229-231) only logs. */
  function HandleDisconnect(s: ServerState): (r: Transition)
    ensures r.state == s && r.outcome == Quiet
  {
    Transition(s, Quiet)
  }

  // ---------------------------------------------------------------------
  // Engine events delivered to the registered listeners.

  function CloseTransportIf(slot: Option<Transport>, id: Id): Option<Transport> {
    if slot.Some? && slot.value.id == id then Some(slot.value.(closed := true)) else slot
  }

  /**
   * `dtlsstatechange` on transport `t` (server.js:255-259): state "closed"
   * closes that transport (the closure captured the transport object itself).
   */
  function HandleDtlsStateChange(s: ServerState, t: Id, state: DtlsState): (r: Transition)
    ensures OnlyTouches(s, r.state, {ProducerTransportSlot, ConsumerTransportSlot})
    ensures r.state.listeners == s.listeners && r.state.nextId == s.nextId
    ensures r.outcome == Quiet
    ensures state != Closed ==> r.state == s
    ensures forall sender: bool :: TransportIn(r.state, sender) != TransportIn(s, sender) ==>
              && TransportIn(s, sender).Some? && TransportIn(s, sender).value.id == t
              && TransportIn(r.state, sender) == Some(TransportIn(s, sender).value.(closed := true))
    ensures Valid(s) && state == Closed ==>
              forall sender: bool :: TransportIn(s, sender).Some? && TransportIn(s, sender).value.id == t ==>
                TransportIn(r.state, sender).Some? && TransportIn(r.state, sender).value.closed
    ensures Valid(s) ==> Valid(r.state)
  {
    if state == Closed && TransportDtlsStateChange(t) in s.listeners then
      Transition(s.(producerTransport := CloseTransportIf(s.producerTransport, t),
                    consumerTransport := CloseTransportIf(s.consumerTransport, t)), Quiet)
    else
      Transition(s, Quiet)
  }

  function CloseProducerIf(slot: Option<Producer>, id: Id): Option<Producer> {
    if slot.Some? && slot.value.id == id then Some(slot.value.(closed := true)) else slot
  }

  /**
   * `transportclose` on producer `p` (server.js:124-127, 140-143) as
   * evidently intended: the listener closes the producer the event fired on.
   * The source's listener closes whatever the slot holds at that moment
   * instead; that behaviour is `ProducerTransportCloseAsWritten` below, and it
   * is what `Step` and the class do.
   */
  function HandleProducerTransportClose(s: ServerState, p: Id): (r: Transition)
    ensures OnlyTouches(s, r.state, {VideoProducerSlot, AudioProducerSlot})
    ensures r.state.listeners == s.listeners && r.state.nextId == s.nextId
    ensures r.outcome == Quiet
    ensures forall video: bool :: ProducerIn(r.state, video) != ProducerIn(s, video) ==>
              && ProducerIn(s, video).Some? && ProducerIn(s, video).value.id == p
              && ProducerIn(r.state, video) == Some(ProducerIn(s, video).value.(closed := true))
    ensures Valid(s) ==>
              forall video: bool :: ProducerIn(s, video).Some? && ProducerIn(s, video).value.id == p ==>
                ProducerIn(r.state, video).Some? && ProducerIn(r.state, video).value.closed
    ensures Valid(s) ==> Valid(r.state)
  {
    var video := if VideoProducerTransportClose(p) in s.listeners then CloseProducerIf(s.producer, p) else s.producer;
    var audio := if AudioProducerTransportClose(p) in s.listeners then CloseProducerIf(s.audioProducer, p) else s.audioProducer;
    Transition(s.(producer := video, audioProducer := audio), Quiet)
  }

  /** The two engine events a consumer listens to. */
  datatype ConsumerCloseCause = TransportClosed | ProducerClosed

  function AudioListener(cause: ConsumerCloseCause, c: Id): Listener {
    match cause
    case TransportClosed => AudioConsumerTransportClose(c)
    case ProducerClosed => AudioConsumerProducerClose(c)
  }

  function CloseConsumerIf(slot: Option<Consumer>, id: Id): Option<Consumer> {
    if slot.Some? && slot.value.id == id then Some(slot.value.(closed := true)) else slot
  }

  /**
   * `transportclose` / `producerclose` on consumer `c` (server.js:173-179,
   * 195-202): the video consumer's listeners only log, so it stays open; the
   * audio consumer's listeners close it.  Here, as evidently intended, the
   * audio listener closes the consumer the event fired on; the source's
   * closes whatever the slot holds, which is `AudioConsumerCloseAsWritten`
   * below, and that is what `Step` and the class do.
   */
  function HandleConsumerClose(s: ServerState, c: Id, cause: ConsumerCloseCause): (r: Transition)
    ensures OnlyTouches(s, r.state, {AudioConsumerSlot})
    ensures r.state.listeners == s.listeners && r.state.nextId == s.nextId
    ensures r.outcome == Quiet
    ensures r.state.audioConsumer != s.audioConsumer ==>
              && s.audioConsumer.Some? && s.audioConsumer.value.id == c
              && r.state.audioConsumer == Some(s.audioConsumer.value.(closed := true))
    ensures Valid(s) && s.audioConsumer.Some? && s.audioConsumer.value.id == c ==>
              r.state.audioConsumer.Some? && r.state.audioConsumer.value.closed
    ensures Valid(s) ==> Valid(r.state)
  {
    if AudioListener(cause, c) in s.listeners then
      Transition(s.(audioConsumer := CloseConsumerIf(s.audioConsumer, c)), Quiet)
    else
      Transition(s, Quiet)
  }

  // ---------------------------------------------------------------------
  // The close listeners exactly as server.js writes them.

  /** `producer.close()` / `audioProducer.close()`: closes the slot's current occupant. */
  function CloseSlotProducer(s: ServerState, video: bool): (Option<Producer>, Option<Fault>) {
    match ProducerIn(s, video)
    case None => (None, Some(Undefined(ProducerSlot(video))))
    case Some(current) => (Some(current.(closed := true)), None)
  }

  /**
   * `transportclose` on producer `p` as written (server.js:124-127,
   * 140-143): the closure reads the module variable `producer` (or
   * `audioProducer`) when it runs, so it closes the producer stored now,
   * which need not be `p`.
   */
  function ProducerTransportCloseAsWritten(s: ServerState, p: Id): (r: Transition)
    ensures OnlyTouches(s, r.state, {VideoProducerSlot, AudioProducerSlot})
    ensures r.state.listeners == s.listeners && r.state.nextId == s.nextId
    ensures Valid(s) ==> r.outcome == Quiet
    ensures VideoProducerTransportClose(p) !in s.listeners ==> r.state.producer == s.producer
    ensures AudioProducerTransportClose(p) !in s.listeners ==> r.state.audioProducer == s.audioProducer
    ensures VideoProducerTransportClose(p) !in s.listeners && AudioProducerTransportClose(p) !in s.listeners ==>
              r == Transition(s, Quiet)
    ensures Valid(s) && VideoProducerTransportClose(p) in s.listeners ==>
              s.producer.Some? && r.state.producer == Some(s.producer.value.(closed := true))
    ensures Valid(s) && AudioProducerTransportClose(p) in s.listeners ==>
              s.audioProducer.Some? && r.state.audioProducer == Some(s.audioProducer.value.(closed := true))
    ensures Valid(s) ==> Valid(r.state)
  {
    var (video, videoFault) :=
      if VideoProducerTransportClose(p) in s.listeners then CloseSlotProducer(s, true) else (s.producer, None);
    var (audio, audioFault) :=
      if AudioProducerTransportClose(p) in s.listeners then CloseSlotProducer(s, false) else (s.audioProducer, None);
    var fault := if videoFault.Some? then videoFault else audioFault;
    Transition(s.(producer := video, audioProducer := audio), Outcome(None, fault))
  }

  /**
   * `transportclose` / `producerclose` on consumer `c` as written
   * (server.js:195-202): `audioConsumer.close()` closes the consumer stored
   * now, which need not be `c`.
   */
  function AudioConsumerCloseAsWritten(s: ServerState, c: Id, cause: ConsumerCloseCause): (r: Transition)
    ensures OnlyTouches(s, r.state, {AudioConsumerSlot})
    ensures r.state.listeners == s.listeners && r.state.nextId == s.nextId
    ensures Valid(s) ==> r.outcome == Quiet
    ensures AudioListener(cause, c) !in s.listeners ==> r == Transition(s, Quiet)
    ensures Valid(s) && AudioListener(cause, c) in s.listeners ==>
              s.audioConsumer.Some? && r.state.audioConsumer == Some(s.audioConsumer.value.(closed := true))
    ensures Valid(s) ==> Valid(r.state)
  {
    if AudioListener(cause, c) !in s.listeners then Transition(s, Quiet)
    else
      match s.audioConsumer
      case None => Transition(s, Throws(Undefined(AudioConsumerSlot)))
      case Some(current) => Transition(s.(audioConsumer := Some(current.(closed := true))), Quiet)
  }

  // ---------------------------------------------------------------------
  // Traces.

  /** One event: a client request (with the engine's answers to the calls it makes) or an engine event. */
  datatype Event =
    | Connection(socketId: string)
    | CreateRoom(routerAnswer: Answer<RtpCapabilities>)
    | CreateWebRtcTransport(sender: bool, transportAnswer: Answer<TransportParams>)
    | TransportConnect(dtlsParameters: DtlsParameters, connectVerdict: Verdict)
    | TransportProduce(kind: string, rtpParameters: RtpParameters, produceVerdict: Verdict)
    | TransportRecvConnect(recvDtlsParameters: DtlsParameters, recvConnectVerdict: Verdict)
    | Consume(rtpCapabilities: RtpCapabilities, videoAnswer: Answer<RtpParameters>, audioAnswer: Answer<RtpParameters>)
    | ConsumerResume(videoVerdict: Verdict, audioVerdict: Verdict)
    | Disconnect
    | DtlsStateChange(transport: Id, dtlsState: DtlsState)
    | ProducerTransportClose(producerId: Id)
    | ConsumerTransportClose(transportConsumerId: Id)
    | ConsumerProducerClose(producerConsumerId: Id)

  /** One event, handled as server.js handles it, close listeners included. */
  function Step(cc: CanConsume, s: ServerState, e: Event): (r: Transition)
    ensures Valid(s) ==> Valid(r.state)
    ensures s.router.Some? ==> r.state.router == s.router
    ensures s.producer.Some? ==> r.state.producer.Some?
    ensures r.state.nextId >= s.nextId
    ensures s.listeners <= r.state.listeners
  {
    match e
    case Connection(socketId) => HandleConnection(s, socketId)
    case CreateRoom(answer) => HandleCreateRoom(s, answer)
    case CreateWebRtcTransport(sender, answer) => HandleCreateWebRtcTransport(s, sender, answer)
    case TransportConnect(dtls, verdict) => HandleConnect(s, true, dtls, verdict)
    case TransportProduce(kind, rtp, verdict) => HandleProduce(s, kind, rtp, verdict)
    case TransportRecvConnect(dtls, verdict) => HandleConnect(s, false, dtls, verdict)
    case Consume(caps, videoAnswer, audioAnswer) => HandleConsume(cc, s, caps, videoAnswer, audioAnswer)
    case ConsumerResume(videoVerdict, audioVerdict) => HandleConsumerResume(s, videoVerdict, audioVerdict)
    case Disconnect => HandleDisconnect(s)
    case DtlsStateChange(t, state) => HandleDtlsStateChange(s, t, state)
    case ProducerTransportClose(p) => ProducerTransportCloseAsWritten(s, p)
    case ConsumerTransportClose(c) => AudioConsumerCloseAsWritten(s, c, TransportClosed)
    case ConsumerProducerClose(c) => AudioConsumerCloseAsWritten(s, c, ProducerClosed)
  }

  /** The state after the events `es`, handled one at a time in order. */
  function Run(cc: CanConsume, s: ServerState, es: seq<Event>): ServerState
    decreases |es|
  {
    if es == [] then s else Step(cc, Run(cc, s, es[..|es| - 1]), es[|es| - 1]).state
  }
}
