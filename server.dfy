/**
 * The server as server.js writes it: module-level variables that the socket
 * handlers and the engine listeners assign in place.  `SignalingServer`
 * holds those variables as fields; each socket event and each engine event
 * is a method that updates them step by step, in the order the source does.
 *
 * Every method is proved against its handler function in `Signaling`: the
 * new fields and what the client observes are exactly the handler's
 * transition from the old fields, so every property proved about the
 * handlers and about `Run` holds of the object as well.
 */
module Server {
  import opened Wrappers
  import opened Engine
  import opened Signaling

  class SignalingServer {
    var router: Option<Router>
    var producerTransport: Option<Transport>
    var consumerTransport: Option<Transport>
    var producer: Option<Producer>
    var audioProducer: Option<Producer>
    var consumer: Option<Consumer>
    var audioConsumer: Option<Consumer>
    /** The closures registered with `.on(...)` on engine handles. */
    var listeners: set<Listener>
    /** The id the engine gives the next handle it creates. */
    var nextId: Id
    /** The router's `canConsume` check. */
    const canConsume: CanConsume

    /** The fields as one record. */
    function State(): ServerState
      reads this
    {
      ServerState(router, producerTransport, consumerTransport, producer, audioProducer,
                  consumer, audioConsumer, listeners, nextId)
    }

    ghost predicate Valid()
      reads this
    {
      Signaling.Valid(State())
    }

    /** Every slot starts `undefined` (server.js:24-31). */
    constructor(canConsume: CanConsume)
      ensures State() == Init() && Valid()
      ensures this.canConsume == canConsume
    {
      router := None;
      producerTransport := None;
      consumerTransport := None;
      producer := None;
      audioProducer := None;
      consumer := None;
      audioConsumer := None;
      listeners := {};
      nextId := 0;
      this.canConsume := canConsume;
    }

    /** The engine hands out a fresh id for a handle it creates. */
    method FreshId() returns (id: Id)
      modifies this
      ensures id == old(nextId) && nextId == old(nextId) + 1
      ensures State() == old(State()).(nextId := old(nextId) + 1)
    {
      id := nextId;
      nextId := nextId + 1;
    }

    /** `connection` (server.js:68-73): nothing changes; says whether a video producer exists. */
    method OnConnection(socketId: string) returns (reply: Reply)
      ensures Transition(State(), Sends(reply)) == HandleConnection(State(), socketId)
      ensures reply.ConnectionSuccess? && (reply.existsProducer <==> producer.Some?)
    {
      reply := ConnectionSuccess(socketId, if producer.Some? then true else false);
    }

    /** `createRoom` (server.js:79-97). */
    method CreateRoom(answer: Answer<RtpCapabilities>) returns (outcome: Outcome)
      requires Valid()
      modifies this
      ensures Valid()
      ensures Transition(State(), outcome) == HandleCreateRoom(old(State()), answer)
    {
      if router.None? {
        if answer.Denied? {
          outcome := Throws(Rejected(answer.reason));
          return;
        }
        var id := FreshId();
        router := Some(Router(id, answer.value));
      }
      outcome := GetRtpCapabilities();
    }

    /** `getRtpCapabilities` (server.js:93-97): reads the router's capabilities. */
    method GetRtpCapabilities() returns (outcome: Outcome)
      requires router.Some?
      ensures outcome == Sends(RtpCapabilitiesReply(router.value.rtpCapabilities))
    {
      outcome := Sends(RtpCapabilitiesReply(router.value.rtpCapabilities));
    }

    /**
     * The helper `createWebRtcTransport` (server.js:234-285): asks the router
     * for a transport and registers its DTLS listener; on any error it
     * reports `params.error` and yields no transport.
     */
    method NewWebRtcTransport(answer: Answer<TransportParams>) returns (transport: Option<Transport>, reply: Reply)
      requires Valid()
      modifies this
      ensures var t := HandleCreateWebRtcTransport(old(State()), true, answer);
              && transport == t.state.producerTransport
              && Sends(reply) == t.outcome
              && State() == t.state.(producerTransport := old(producerTransport))
    {
      if router.None? {
        transport := None;
        reply := ErrorReply(Undefined(RouterSlot));
        return;
      }
      if answer.Denied? {
        transport := None;
        reply := ErrorReply(Rejected(answer.reason));
        return;
      }
      var id := FreshId();
      transport := Some(Transport(id, answer.value, None, false));
      listeners := listeners + {TransportDtlsStateChange(id)};
      reply := TransportCreated(id, answer.value);
    }

    /** `createWebRtcTransport` (server.js:99-105): the result, even none, is assigned to the slot. */
    method CreateWebRtcTransport(sender: bool, answer: Answer<TransportParams>) returns (outcome: Outcome)
      requires Valid()
      modifies this
      ensures Valid()
      ensures Transition(State(), outcome) == HandleCreateWebRtcTransport(old(State()), sender, answer)
    {
      ghost var before := State();
      var transport, reply := NewWebRtcTransport(answer);
      if sender {
        producerTransport := transport;
      } else {
        consumerTransport := transport;
      }
      outcome := Sends(reply);
      assert Transition(State(), outcome) == HandleCreateWebRtcTransport(before, sender, answer);
    }

    /** `transport-connect` (server.js:107-110). */
    method TransportConnect(dtls: DtlsParameters, verdict: Verdict) returns (outcome: Outcome)
      requires Valid()
      modifies this
      ensures Valid()
      ensures Transition(State(), outcome) == HandleConnect(old(State()), true, dtls, verdict)
    {
      if producerTransport.None? {
        outcome := Throws(Undefined(ProducerTransportSlot));
        return;
      }
      if verdict.Refused? {
        outcome := Throws(Rejected(verdict.reason));
        return;
      }
      producerTransport := Some(producerTransport.value.(remoteDtls := Some(dtls)));
      outcome := Quiet;
    }

    /** `transport-produce` (server.js:112-150). */
    method TransportProduce(kind: string, rtp: RtpParameters, verdict: Verdict) returns (outcome: Outcome)
      requires Valid()
      modifies this
      ensures Valid()
      ensures Transition(State(), outcome) == HandleProduce(old(State()), kind, rtp, verdict)
    {
      if producerTransport.None? {
        outcome := Throws(Undefined(ProducerTransportSlot));
        return;
      }
      if verdict.Refused? {
        outcome := Throws(Rejected(verdict.reason));
        return;
      }
      ghost var before := State();
      var id := FreshId();
      if kind == "video" {
        producer := Some(Producer(id, kind, producerTransport.value.id, rtp, false));
        listeners := listeners + {VideoProducerTransportClose(id)};
        outcome := Sends(ProducerCreated(producer.value.id));
      } else {
        audioProducer := Some(Producer(id, kind, producerTransport.value.id, rtp, false));
        listeners := listeners + {AudioProducerTransportClose(id)};
        outcome := Sends(ProducerCreated(audioProducer.value.id));
      }
      assert Transition(State(), outcome) == HandleProduce(before, kind, rtp, verdict);
    }

    /** `transport-recv-connect` (server.js:152-155). */
    method TransportRecvConnect(dtls: DtlsParameters, verdict: Verdict) returns (outcome: Outcome)
      requires Valid()
      modifies this
      ensures Valid()
      ensures Transition(State(), outcome) == HandleConnect(old(State()), false, dtls, verdict)
    {
      if consumerTransport.None? {
        outcome := Throws(Undefined(ConsumerTransportSlot));
        return;
      }
      if verdict.Refused? {
        outcome := Throws(Rejected(verdict.reason));
        return;
      }
      consumerTransport := Some(consumerTransport.value.(remoteDtls := Some(dtls)));
      outcome := Quiet;
    }

    /** `consume` (server.js:157-221); every failure inside the `try` becomes `params.error`. */
    method Consume(caps: RtpCapabilities, videoAnswer: Answer<RtpParameters>, audioAnswer: Answer<RtpParameters>)
      returns (outcome: Outcome)
      requires Valid()
      modifies this
      ensures Valid()
      ensures Transition(State(), outcome) == HandleConsume(canConsume, old(State()), caps, videoAnswer, audioAnswer)
    {
      if router.None? {
        outcome := Sends(ErrorReply(Undefined(RouterSlot)));
        return;
      }
      if producer.None? {
        outcome := Sends(ErrorReply(Undefined(VideoProducerSlot)));
        return;
      }
      if !canConsume(producer.value.id, caps) {
        outcome := Quiet;
        return;
      }
      if consumerTransport.None? {
        outcome := Sends(ErrorReply(Undefined(ConsumerTransportSlot)));
        return;
      }
      if videoAnswer.Denied? {
        outcome := Sends(ErrorReply(Rejected(videoAnswer.reason)));
        return;
      }
      outcome := CreateConsumers(caps, videoAnswer.value, audioAnswer);
    }

    /** The video consumer of `consume` (server.js:164-184), stored paused with its two listeners. */
    method CreateVideoConsumer(videoRtp: RtpParameters) returns (params: ConsumerParams)
      requires producer.Some? && consumerTransport.Some?
      modifies this
      ensures var video := PausedConsumer(old(nextId), old(producer.value), old(consumerTransport.value.id), videoRtp);
              && params == ParamsOf(video)
              && State() == old(State()).(consumer := Some(video),
                                          listeners := old(listeners) + {VideoConsumerTransportClose(video.id), VideoConsumerProducerClose(video.id)},
                                          nextId := old(nextId) + 1)
    {
      var videoId := FreshId();
      consumer := Some(PausedConsumer(videoId, producer.value, consumerTransport.value.id, videoRtp));
      listeners := listeners + {VideoConsumerTransportClose(videoId), VideoConsumerProducerClose(videoId)};
      params := ParamsOf(consumer.value);
    }

    /** The audio consumer of `consume` (server.js:190-209), stored paused with its two listeners. */
    method CreateAudioConsumer(audioRtp: RtpParameters) returns (params: ConsumerParams)
      requires audioProducer.Some? && consumerTransport.Some?
      modifies this
      ensures var audio := PausedConsumer(old(nextId), old(audioProducer.value), old(consumerTransport.value.id), audioRtp);
              && params == ParamsOf(audio)
              && State() == old(State()).(audioConsumer := Some(audio),
                                          listeners := old(listeners) + {AudioConsumerTransportClose(audio.id), AudioConsumerProducerClose(audio.id)},
                                          nextId := old(nextId) + 1)
    {
      var audioId := FreshId();
      audioConsumer := Some(PausedConsumer(audioId, audioProducer.value, consumerTransport.value.id, audioRtp));
      listeners := listeners + {AudioConsumerTransportClose(audioId), AudioConsumerProducerClose(audioId)};
      params := ParamsOf(audioConsumer.value);
    }

    /**
     * The engine half of `consume` (server.js:164-213), once the checks on
     * the router, the video producer and the receive transport have passed:
     * the paused video consumer is stored before the audio producer is read,
     * so a failure on the audio half leaves it stored.
     */
    method CreateConsumers(caps: RtpCapabilities, videoRtp: RtpParameters, audioAnswer: Answer<RtpParameters>)
      returns (outcome: Outcome)
      requires router.Some? && producer.Some? && canConsume(producer.value.id, caps) && consumerTransport.Some?
      modifies this
      ensures Transition(State(), outcome) == HandleConsume(canConsume, old(State()), caps, Granted(videoRtp), audioAnswer)
    {
      ghost var before := State();
      var params := CreateVideoConsumer(videoRtp);
      if audioProducer.None? {
        outcome := Sends(ErrorReply(Undefined(AudioProducerSlot)));
        assert Transition(State(), outcome) == HandleConsume(canConsume, before, caps, Granted(videoRtp), audioAnswer);
        return;
      }
      if audioAnswer.Denied? {
        outcome := Sends(ErrorReply(Rejected(audioAnswer.reason)));
        assert Transition(State(), outcome) == HandleConsume(canConsume, before, caps, Granted(videoRtp), audioAnswer);
        return;
      }
      var audioParams := CreateAudioConsumer(audioAnswer.value);
      outcome := Sends(ConsumersCreated(params, audioParams));
      assert Transition(State(), outcome) == HandleConsume(canConsume, before, caps, Granted(videoRtp), audioAnswer);
    }

    /** `consumer-resume` (server.js:223-227). */
    method ConsumerResume(videoVerdict: Verdict, audioVerdict: Verdict) returns (outcome: Outcome)
      requires Valid()
      modifies this
      ensures Valid()
      ensures Transition(State(), outcome) == HandleConsumerResume(old(State()), videoVerdict, audioVerdict)
    {
      if consumer.None? {
        outcome := Throws(Undefined(VideoConsumerSlot));
        return;
      }
      if videoVerdict.Refused? {
        outcome := Throws(Rejected(videoVerdict.reason));
        return;
      }
      consumer := Some(consumer.value.(paused := false));
      if audioConsumer.None? {
        outcome := Throws(Undefined(AudioConsumerSlot));
        return;
      }
      if audioVerdict.Refused? {
        outcome := Throws(Rejected(audioVerdict.reason));
        return;
      }
      audioConsumer := Some(audioConsumer.value.(paused := false));
      outcome := Quiet;
    }

    /** `disconnect` (server.js:229-231): nothing changes. */
    method Disconnect() returns (outcome: Outcome)
      ensures Transition(State(), outcome) == HandleDisconnect(State())
      ensures outcome.sent.None? && outcome.thrown.None?
    {
      outcome := Quiet;
    }

    /** `dtlsstatechange` on transport `t` (server.js:255-259). */
    method OnDtlsStateChange(t: Id, state: DtlsState)
      requires Valid()
      modifies this
      ensures Valid()
      ensures Transition(State(), Quiet) == HandleDtlsStateChange(old(State()), t, state)
    {
      if TransportDtlsStateChange(t) !in listeners || state != Closed {
        return;
      }
      if producerTransport.Some? && producerTransport.value.id == t {
        producerTransport := Some(producerTransport.value.(closed := true));
      }
      if consumerTransport.Some? && consumerTransport.value.id == t {
        consumerTransport := Some(consumerTransport.value.(closed := true));
      }
    }

    /**
     * `transportclose` on producer `p` (server.js:124-127, 140-143): the
     * listener calls `close()` on whatever the field holds when it runs.
     */
    method OnProducerTransportClose(p: Id) returns (outcome: Outcome)
      requires Valid()
      modifies this
      ensures Valid()
      ensures Transition(State(), outcome) == ProducerTransportCloseAsWritten(old(State()), p)
    {
      outcome := Quiet;
      if VideoProducerTransportClose(p) in listeners {
        if producer.None? {
          outcome := Throws(Undefined(VideoProducerSlot));
        } else {
          producer := Some(producer.value.(closed := true));
        }
      }
      if AudioProducerTransportClose(p) in listeners {
        if audioProducer.None? {
          if outcome == Quiet {
            outcome := Throws(Undefined(AudioProducerSlot));
          }
        } else {
          audioProducer := Some(audioProducer.value.(closed := true));
        }
      }
    }

    /**
     * `transportclose` / `producerclose` on consumer `c` (server.js:173-179,
     * 195-202): the video consumer's listeners only log; the audio
     * consumer's call `close()` on whatever the field holds when they run.
     */
    method OnConsumerClose(c: Id, cause: ConsumerCloseCause) returns (outcome: Outcome)
      requires Valid()
      modifies this
      ensures Valid()
      ensures Transition(State(), outcome) == AudioConsumerCloseAsWritten(old(State()), c, cause)
    {
      if AudioListener(cause, c) !in listeners {
        outcome := Quiet;
        return;
      }
      if audioConsumer.None? {
        outcome := Throws(Undefined(AudioConsumerSlot));
        return;
      }
      audioConsumer := Some(audioConsumer.value.(closed := true));
      outcome := Quiet;
    }
  }
}
