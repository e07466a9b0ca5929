/**
 * Concrete runs of the server from its start: the requests the publisher
 * page (app/publish/page.jsx) and the subscriber page (app/consume/page.jsx)
 * send, in the order they send them; a subscriber that arrives before any
 * publisher; and the two runs in which a close listener as written closes a
 * handle other than the one its event was about.
 *
 * Each run is given with the state after every event, so that each step
 * is checked on its own.
 */
module SignalingScenarios {
  import opened Wrappers
  import opened Engine
  import opened Signaling
  import opened SignalingProperties

  const Caps := RtpCapabilities("router")
  const SendParams := TransportParams("ice-send", "candidates-send", DtlsParameters("server-send"))
  const RecvParams := TransportParams("ice-recv", "candidates-recv", DtlsParameters("server-recv"))
  const ClientDtls := DtlsParameters("client")
  const VideoRtp := RtpParameters("vp8")
  const AudioRtp := RtpParameters("opus")
  const ConsumerVideoRtp := RtpParameters("vp8-out")
  const ConsumerAudioRtp := RtpParameters("opus-out")

  /** A router that accepts every consumer. */
  const Compatible: CanConsume := (producerId: Id, caps: RtpCapabilities) => true

  /** Each event of `es` takes the run from its state before to its state after. */
  lemma RunByPrefixes(cc: CanConsume, s: ServerState, es: seq<Event>)
    ensures forall k :: 0 <= k < |es| ==> Run(cc, s, es[..k + 1]) == Step(cc, Run(cc, s, es[..k]), es[k]).state
    ensures es[..0] == [] && es[..|es|] == es
  {
    forall k | 0 <= k < |es|
      ensures Run(cc, s, es[..k + 1]) == Step(cc, Run(cc, s, es[..k]), es[k]).state
    {
      RunSnoc(cc, s, es[..k], es[k]);
      assert es[..k] + [es[k]] == es[..k + 1];
    }
  }

  // ---------------------------------------------------------------------
  // Step on each kind of event is the handler for that event.  Stated on a
  // symbolic state once, so that the runs below unfold only the handler
  // their event names.

  lemma StepConnection(cc: CanConsume, s: ServerState, id: string)
    ensures Step(cc, s, Connection(id)) == HandleConnection(s, id)
  {
  }

  lemma StepCreateRoom(cc: CanConsume, s: ServerState, a: Answer<RtpCapabilities>)
    ensures Step(cc, s, CreateRoom(a)) == HandleCreateRoom(s, a)
  {
  }

  lemma StepCreateWebRtcTransport(cc: CanConsume, s: ServerState, sender: bool, a: Answer<TransportParams>)
    ensures Step(cc, s, CreateWebRtcTransport(sender, a)) == HandleCreateWebRtcTransport(s, sender, a)
  {
  }

  lemma StepTransportConnect(cc: CanConsume, s: ServerState, dtls: DtlsParameters, v: Verdict)
    ensures Step(cc, s, TransportConnect(dtls, v)) == HandleConnect(s, true, dtls, v)
  {
  }

  lemma StepTransportRecvConnect(cc: CanConsume, s: ServerState, dtls: DtlsParameters, v: Verdict)
    ensures Step(cc, s, TransportRecvConnect(dtls, v)) == HandleConnect(s, false, dtls, v)
  {
  }

  lemma StepTransportProduce(cc: CanConsume, s: ServerState, kind: string, rtp: RtpParameters, v: Verdict)
    ensures Step(cc, s, TransportProduce(kind, rtp, v)) == HandleProduce(s, kind, rtp, v)
  {
  }

  lemma StepConsume(cc: CanConsume, s: ServerState, caps: RtpCapabilities,
                    va: Answer<RtpParameters>, aa: Answer<RtpParameters>)
    ensures Step(cc, s, Consume(caps, va, aa)) == HandleConsume(cc, s, caps, va, aa)
  {
  }

  lemma StepConsumerResume(cc: CanConsume, s: ServerState, vv: Verdict, av: Verdict)
    ensures Step(cc, s, ConsumerResume(vv, av)) == HandleConsumerResume(s, vv, av)
  {
  }

  lemma StepDtlsStateChange(cc: CanConsume, s: ServerState, t: Id, d: DtlsState)
    ensures Step(cc, s, DtlsStateChange(t, d)) == HandleDtlsStateChange(s, t, d)
  {
  }

  lemma StepProducerTransportClose(cc: CanConsume, s: ServerState, p: Id)
    ensures Step(cc, s, ProducerTransportClose(p)) == ProducerTransportCloseAsWritten(s, p)
  {
  }

  lemma StepConsumerTransportClose(cc: CanConsume, s: ServerState, c: Id)
    ensures Step(cc, s, ConsumerTransportClose(c)) == AudioConsumerCloseAsWritten(s, c, TransportClosed)
  {
  }

  // ---------------------------------------------------------------------
  // The publisher page: room, send transport, connect, video, audio.

  const Publish: seq<Event> := [
    CreateRoom(Granted(Caps)),
    CreateWebRtcTransport(true, Granted(SendParams)),
    TransportConnect(ClientDtls, Accepted),
    TransportProduce("video", VideoRtp, Accepted),
    TransportProduce("audio", AudioRtp, Accepted)
  ]

  const Room := Init().(router := Some(Router(0, Caps)), nextId := 1)
  const Sending := Room.(producerTransport := Some(Transport(1, SendParams, None, false)),
                         listeners := {TransportDtlsStateChange(1)}, nextId := 2)
  const SendConnected := Sending.(producerTransport := Some(Transport(1, SendParams, Some(ClientDtls), false)))
  const VideoPublished := SendConnected.(producer := Some(Producer(2, "video", 1, VideoRtp, false)),
                                         listeners := SendConnected.listeners + {VideoProducerTransportClose(2)},
                                         nextId := 3)
  const Published := VideoPublished.(audioProducer := Some(Producer(3, "audio", 1, AudioRtp, false)),
                                     listeners := VideoPublished.listeners + {AudioProducerTransportClose(3)},
                                     nextId := 4)

  lemma RoomAndTransportSteps(cc: CanConsume)
    ensures Step(cc, Init(), CreateRoom(Granted(Caps))).state == Room
    ensures Step(cc, Room, CreateWebRtcTransport(true, Granted(SendParams))).state == Sending
    ensures Step(cc, Sending, TransportConnect(ClientDtls, Accepted)).state == SendConnected
  {
    StepCreateRoom(cc, Init(), Granted(Caps));
    StepCreateWebRtcTransport(cc, Room, true, Granted(SendParams));
    StepTransportConnect(cc, Sending, ClientDtls, Accepted);
  }

  lemma VideoProduceStep(cc: CanConsume)
    ensures Step(cc, SendConnected, TransportProduce("video", VideoRtp, Accepted)).state == VideoPublished
  {
    StepTransportProduce(cc, SendConnected, "video", VideoRtp, Accepted);
  }

  lemma AudioProduceStep(cc: CanConsume)
    ensures Step(cc, VideoPublished, TransportProduce("audio", AudioRtp, Accepted)).state == Published
  {
    StepTransportProduce(cc, VideoPublished, "audio", AudioRtp, Accepted);
  }

  lemma PublishReaches(cc: CanConsume)
    ensures Run(cc, Init(), Publish[..4]) == VideoPublished
    ensures Run(cc, Init(), Publish) == Published
  {
    RoomAndTransportSteps(cc);
    VideoProduceStep(cc);
    AudioProduceStep(cc);
    assert Publish[0] == CreateRoom(Granted(Caps));
    assert Publish[1] == CreateWebRtcTransport(true, Granted(SendParams));
    assert Publish[2] == TransportConnect(ClientDtls, Accepted);
    assert Publish[3] == TransportProduce("video", VideoRtp, Accepted);
    assert Publish[4] == TransportProduce("audio", AudioRtp, Accepted);
    RunByPrefixes(cc, Init(), Publish);
  }

  // ---------------------------------------------------------------------
  // The subscriber page after the publisher: receive transport, consume,
  // then the connect that the client's first local consume raises, then
  // resume.

  const Subscribe: seq<Event> := [
    Connection("subscriber"),
    CreateRoom(Denied("not asked")),
    CreateWebRtcTransport(false, Granted(RecvParams)),
    Consume(Caps, Granted(ConsumerVideoRtp), Granted(ConsumerAudioRtp)),
    TransportRecvConnect(ClientDtls, Accepted),
    ConsumerResume(Accepted, Accepted)
  ]

  const Receiving := Published.(consumerTransport := Some(Transport(4, RecvParams, None, false)),
                                listeners := Published.listeners + {TransportDtlsStateChange(4)},
                                nextId := 5)
  const Offered := Receiving.(
    consumer := Some(Consumer(5, 2, "video", 4, ConsumerVideoRtp, true, false)),
    audioConsumer := Some(Consumer(6, 3, "audio", 4, ConsumerAudioRtp, true, false)),
    listeners := Receiving.listeners + {VideoConsumerTransportClose(5), VideoConsumerProducerClose(5),
                                        AudioConsumerTransportClose(6), AudioConsumerProducerClose(6)},
    nextId := 7)
  const Consumed := Offered.(consumerTransport := Some(Transport(4, RecvParams, Some(ClientDtls), false)))
  const Resumed := Consumed.(
    consumer := Some(Consumer(5, 2, "video", 4, ConsumerVideoRtp, false, false)),
    audioConsumer := Some(Consumer(6, 3, "audio", 4, ConsumerAudioRtp, false, false)))

  lemma SubscribeGreetingSteps()
    ensures Step(Compatible, Published, Connection("subscriber")).state == Published
    ensures Step(Compatible, Published, CreateRoom(Denied("not asked"))).state == Published
  {
    StepConnection(Compatible, Published, "subscriber");
    StepCreateRoom(Compatible, Published, Denied("not asked"));
  }

  lemma SubscribeTransportStep()
    ensures Step(Compatible, Published, CreateWebRtcTransport(false, Granted(RecvParams))).state == Receiving
  {
    StepCreateWebRtcTransport(Compatible, Published, false, Granted(RecvParams));
  }

  lemma SubscribeConsumeStep()
    ensures Step(Compatible, Receiving, Subscribe[3]).state == Offered
    ensures Step(Compatible, Receiving, Subscribe[3]).outcome
              == Sends(ConsumersCreated(ConsumerParams(5, 2, "video", ConsumerVideoRtp),
                                        ConsumerParams(6, 3, "audio", ConsumerAudioRtp)))
  {
    StepConsume(Compatible, Receiving, Caps, Granted(ConsumerVideoRtp), Granted(ConsumerAudioRtp));
  }

  lemma SubscribeConnectStep()
    ensures Step(Compatible, Offered, TransportRecvConnect(ClientDtls, Accepted)).state == Consumed
  {
    StepTransportRecvConnect(Compatible, Offered, ClientDtls, Accepted);
  }

  lemma SubscribeResumeStep()
    ensures Step(Compatible, Consumed, ConsumerResume(Accepted, Accepted)).state == Resumed
  {
    StepConsumerResume(Compatible, Consumed, Accepted, Accepted);
  }

  lemma SubscribeReaches()
    ensures Run(Compatible, Published, Subscribe[..3]) == Receiving
    ensures Run(Compatible, Published, Subscribe[..4]) == Offered
    ensures Run(Compatible, Published, Subscribe) == Resumed
  {
    SubscribeGreetingSteps();
    SubscribeTransportStep();
    SubscribeConsumeStep();
    SubscribeConnectStep();
    SubscribeResumeStep();
    RunByPrefixes(Compatible, Published, Subscribe);
  }

  /**
   * Publisher then subscriber: the room gets id 0, the send transport 1,
   * the video and audio producers 2 and 3, the receive transport 4 and the
   * two consumers 5 and 6.  `consume` answers with both consumers, created
   * paused and naming the two producers; after `transport-recv-connect` and
   * `consumer-resume` both are active.  The subscriber's `createRoom`
   * reused the router.
   */
  lemma PublishThenSubscribe()
    ensures Run(Compatible, Init(), Publish + Subscribe[..3]).router == Some(Router(0, Caps))
    ensures Step(Compatible, Run(Compatible, Init(), Publish + Subscribe[..3]), Subscribe[3]).outcome
              == Sends(ConsumersCreated(ConsumerParams(5, 2, "video", ConsumerVideoRtp),
                                        ConsumerParams(6, 3, "audio", ConsumerAudioRtp)))
    ensures Run(Compatible, Init(), Publish + Subscribe[..4]).consumer
              == Some(Consumer(5, 2, "video", 4, ConsumerVideoRtp, true, false))
    ensures Run(Compatible, Init(), Publish + Subscribe[..4]).audioConsumer
              == Some(Consumer(6, 3, "audio", 4, ConsumerAudioRtp, true, false))
    ensures Run(Compatible, Init(), Publish + Subscribe).consumer
              == Some(Consumer(5, 2, "video", 4, ConsumerVideoRtp, false, false))
    ensures Run(Compatible, Init(), Publish + Subscribe).audioConsumer
              == Some(Consumer(6, 3, "audio", 4, ConsumerAudioRtp, false, false))
  {
    PublishReaches(Compatible);
    SubscribeReaches();
    SubscribeConsumeStep();
    RunAppend(Compatible, Init(), Publish, Subscribe[..3]);
    RunAppend(Compatible, Init(), Publish, Subscribe[..4]);
    RunAppend(Compatible, Init(), Publish, Subscribe);
    assert Run(Compatible, Init(), Publish + Subscribe[..3]) == Receiving;
    assert Run(Compatible, Init(), Publish + Subscribe[..4]) == Offered;
    assert Run(Compatible, Init(), Publish + Subscribe) == Resumed;
  }

  /**
   * A subscriber before any publisher: after the room and the receive
   * transport, `consume` finds no video producer, reports the failed
   * dereference as `params.error` and creates nothing (the page then stops).
   */
  const EarlySubscriber: seq<Event> := [
    CreateRoom(Granted(Caps)),
    CreateWebRtcTransport(false, Granted(RecvParams))
  ]

  const EarlyReceiving := Room.(consumerTransport := Some(Transport(1, RecvParams, None, false)),
                                listeners := {TransportDtlsStateChange(1)}, nextId := 2)

  lemma EarlySubscriberReaches(cc: CanConsume)
    ensures Run(cc, Init(), EarlySubscriber) == EarlyReceiving
  {
    StepCreateRoom(cc, Init(), Granted(Caps));
    StepCreateWebRtcTransport(cc, Room, false, Granted(RecvParams));
    assert Step(cc, Init(), EarlySubscriber[0]).state == Room;
    assert Step(cc, Room, EarlySubscriber[1]).state == EarlyReceiving;
    RunByPrefixes(cc, Init(), EarlySubscriber);
  }

  lemma SubscribeBeforePublish(cc: CanConsume, caps: RtpCapabilities,
                               videoAnswer: Answer<RtpParameters>, audioAnswer: Answer<RtpParameters>)
    ensures var s := Run(cc, Init(), EarlySubscriber);
            var r := Step(cc, s, Consume(caps, videoAnswer, audioAnswer));
            && r.state == s
            && r.state.consumer.None? && r.state.audioConsumer.None?
            && r.outcome == Sends(ErrorReply(Undefined(VideoProducerSlot)))
  {
    EarlySubscriberReaches(cc);
    StepConsume(cc, EarlyReceiving, caps, videoAnswer, audioAnswer);
  }

  // ---------------------------------------------------------------------
  // A publisher that publishes video again on a new send transport.

  const Republish: seq<Event> := [
    CreateRoom(Granted(Caps)),
    CreateWebRtcTransport(true, Granted(SendParams)),
    TransportConnect(ClientDtls, Accepted),
    TransportProduce("video", VideoRtp, Accepted),
    CreateWebRtcTransport(true, Granted(SendParams)),
    TransportConnect(ClientDtls, Accepted),
    TransportProduce("video", VideoRtp, Accepted),
    DtlsStateChange(1, Closed)
  ]

  const Resending := VideoPublished.(producerTransport := Some(Transport(3, SendParams, None, false)),
                                     listeners := VideoPublished.listeners + {TransportDtlsStateChange(3)},
                                     nextId := 4)
  const Reconnected := Resending.(producerTransport := Some(Transport(3, SendParams, Some(ClientDtls), false)))
  const Republished := Reconnected.(producer := Some(Producer(4, "video", 3, VideoRtp, false)),
                                    listeners := Reconnected.listeners + {VideoProducerTransportClose(4)},
                                    nextId := 5)

  lemma ResendSteps(cc: CanConsume)
    ensures Step(cc, VideoPublished, CreateWebRtcTransport(true, Granted(SendParams))).state == Resending
    ensures Step(cc, Resending, TransportConnect(ClientDtls, Accepted)).state == Reconnected
  {
    StepCreateWebRtcTransport(cc, VideoPublished, true, Granted(SendParams));
    StepTransportConnect(cc, Resending, ClientDtls, Accepted);
  }

  lemma RepublishVideoStep(cc: CanConsume)
    ensures Step(cc, Reconnected, TransportProduce("video", VideoRtp, Accepted)).state == Republished
  {
    StepTransportProduce(cc, Reconnected, "video", VideoRtp, Accepted);
  }

  lemma OldTransportClosedStep(cc: CanConsume)
    ensures Step(cc, Republished, DtlsStateChange(1, Closed)).state == Republished
  {
    StepDtlsStateChange(cc, Republished, 1, Closed);
  }

  /** The second half of `Republish`: a new send transport, connected, then video on it. */
  const Resend: seq<Event> := [
    CreateWebRtcTransport(true, Granted(SendParams)),
    TransportConnect(ClientDtls, Accepted),
    TransportProduce("video", VideoRtp, Accepted),
    DtlsStateChange(1, Closed)
  ]

  lemma ResendReaches(cc: CanConsume)
    ensures Run(cc, VideoPublished, Resend) == Republished
  {
    ResendSteps(cc);
    RepublishVideoStep(cc);
    OldTransportClosedStep(cc);
    RunByPrefixes(cc, VideoPublished, Resend);
  }

  lemma RepublishReaches(cc: CanConsume)
    ensures Run(cc, Init(), Republish) == Republished
  {
    PublishReaches(cc);
    ResendReaches(cc);
    assert Republish == Publish[..4] + Resend;
    RunAppend(cc, Init(), Publish[..4], Resend);
  }

  lemma StaleProducerListenerAsWritten()
    ensures ProducerTransportCloseAsWritten(Republished, 2).state.producer
              == Some(Producer(4, "video", 3, VideoRtp, true))
  {
    assert VideoProducerTransportClose(2) in Republished.listeners;
  }

  lemma StaleProducerListenerCorrected()
    ensures HandleProducerTransportClose(Republished, 2).state == Republished
  {
    assert VideoProducerTransportClose(2) in Republished.listeners;
  }

  /**
   * Producer 2 lived on transport 1; producer 4, now in the slot, lives on
   * transport 3.  When transport 1 has closed, the engine fires
   * `transportclose` on producer 2.  The listener as written, which is what
   * the server does on that event, closes producer 4; the listener that
   * closes the producer the event is about leaves the slot alone.
   */
  lemma StaleProducerListenerClosesCurrentProducer(cc: CanConsume)
    ensures var s := Run(cc, Init(), Republish);
            && s.producer == Some(Producer(4, "video", 3, VideoRtp, false))
            && ProducerTransportCloseAsWritten(s, 2).state.producer == Some(Producer(4, "video", 3, VideoRtp, true))
            && Step(cc, s, ProducerTransportClose(2)).state.producer == Some(Producer(4, "video", 3, VideoRtp, true))
            && HandleProducerTransportClose(s, 2).state == s
  {
    RepublishReaches(cc);
    StaleProducerListenerAsWritten();
    StepProducerTransportClose(cc, Republished, 2);
    StaleProducerListenerCorrected();
  }

  // ---------------------------------------------------------------------
  // Two subscribers in turn after the publisher.

  const Handshake: seq<Event> := [
    CreateWebRtcTransport(false, Granted(RecvParams)),
    Consume(Caps, Granted(ConsumerVideoRtp), Granted(ConsumerAudioRtp)),
    TransportRecvConnect(ClientDtls, Accepted)
  ]

  const TwoSubscribers: seq<Event> := Publish + Handshake + Handshake + [DtlsStateChange(4, Closed)]

  const SecondReceiving := Consumed.(consumerTransport := Some(Transport(7, RecvParams, None, false)),
                                     listeners := Consumed.listeners + {TransportDtlsStateChange(7)},
                                     nextId := 8)
  const SecondOffered := SecondReceiving.(
    consumer := Some(Consumer(8, 2, "video", 7, ConsumerVideoRtp, true, false)),
    audioConsumer := Some(Consumer(9, 3, "audio", 7, ConsumerAudioRtp, true, false)),
    listeners := SecondReceiving.listeners + {VideoConsumerTransportClose(8), VideoConsumerProducerClose(8),
                                              AudioConsumerTransportClose(9), AudioConsumerProducerClose(9)},
    nextId := 10)
  const SecondConsumed := SecondOffered.(consumerTransport := Some(Transport(7, RecvParams, Some(ClientDtls), false)))

  lemma FirstHandshakeReaches()
    ensures Run(Compatible, Published, Handshake) == Consumed
  {
    SubscribeTransportStep();
    SubscribeConsumeStep();
    SubscribeConnectStep();
    RunByPrefixes(Compatible, Published, Handshake);
  }

  lemma SecondTransportStep()
    ensures Step(Compatible, Consumed, CreateWebRtcTransport(false, Granted(RecvParams))).state == SecondReceiving
  {
    StepCreateWebRtcTransport(Compatible, Consumed, false, Granted(RecvParams));
  }

  lemma SecondConsumeStep()
    ensures Step(Compatible, SecondReceiving, Consume(Caps, Granted(ConsumerVideoRtp), Granted(ConsumerAudioRtp))).state
              == SecondOffered
  {
    StepConsume(Compatible, SecondReceiving, Caps, Granted(ConsumerVideoRtp), Granted(ConsumerAudioRtp));
  }

  lemma SecondConnectStep()
    ensures Step(Compatible, SecondOffered, TransportRecvConnect(ClientDtls, Accepted)).state == SecondConsumed
  {
    StepTransportRecvConnect(Compatible, SecondOffered, ClientDtls, Accepted);
  }

  lemma SecondHandshakeReaches()
    ensures Run(Compatible, Consumed, Handshake) == SecondConsumed
  {
    SecondTransportStep();
    SecondConsumeStep();
    SecondConnectStep();
    RunByPrefixes(Compatible, Consumed, Handshake);
  }

  lemma StaleTransportClosed()
    ensures Step(Compatible, SecondConsumed, DtlsStateChange(4, Closed)).state == SecondConsumed
  {
    StepDtlsStateChange(Compatible, SecondConsumed, 4, Closed);
  }

  lemma TwoSubscribersReach()
    ensures Run(Compatible, Init(), TwoSubscribers) == SecondConsumed
  {
    var cc := Compatible;
    PublishReaches(cc);
    FirstHandshakeReaches();
    SecondHandshakeReaches();
    RunAppend(cc, Init(), Publish, Handshake);
    RunAppend(cc, Init(), Publish + Handshake, Handshake);
    RunAppend(cc, Init(), Publish + Handshake + Handshake, [DtlsStateChange(4, Closed)]);
    StaleTransportClosed();
    RunSnoc(cc, SecondConsumed, [], DtlsStateChange(4, Closed));
  }

  lemma StaleAudioListenerAsWritten()
    ensures AudioConsumerCloseAsWritten(SecondConsumed, 6, TransportClosed).state.audioConsumer
              == Some(Consumer(9, 3, "audio", 7, ConsumerAudioRtp, true, true))
  {
    assert AudioConsumerTransportClose(6) in SecondConsumed.listeners;
  }

  lemma StaleAudioListenerCorrected()
    ensures HandleConsumerClose(SecondConsumed, 6, TransportClosed).state == SecondConsumed
  {
    assert AudioConsumerTransportClose(6) in SecondConsumed.listeners;
  }

  /**
   * Consumers 5 and 6 lived on receive transport 4; consumers 8 and 9, now
   * in the slots, live on transport 7.  When transport 4 has closed, the
   * engine fires `transportclose` on consumer 6.  The audio listener as
   * written, which is what the server does on that event, closes consumer 9,
   * the second subscriber's; the listener that closes the consumer the event
   * is about leaves the slot alone.
   */
  lemma StaleAudioConsumerListenerClosesCurrentConsumer()
    ensures var s := Run(Compatible, Init(), TwoSubscribers);
            && s.audioConsumer == Some(Consumer(9, 3, "audio", 7, ConsumerAudioRtp, true, false))
            && AudioConsumerCloseAsWritten(s, 6, TransportClosed).state.audioConsumer
                 == Some(Consumer(9, 3, "audio", 7, ConsumerAudioRtp, true, true))
            && Step(Compatible, s, ConsumerTransportClose(6)).state.audioConsumer
                 == Some(Consumer(9, 3, "audio", 7, ConsumerAudioRtp, true, true))
            && HandleConsumerClose(s, 6, TransportClosed).state == s
  {
    TwoSubscribersReach();
    StaleAudioListenerAsWritten();
    StepConsumerTransportClose(Compatible, SecondConsumed, 6);
    StaleAudioListenerCorrected();
  }
}
