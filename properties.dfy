/**
 * Properties of the signalling state machine: single handlers, whole
 * traces of events, two end-to-end scenarios, and the behaviour of the
 * close listeners as server.js writes them.
 */
module SignalingProperties {
  import opened Wrappers
  import opened Engine
  import opened Signaling

  // ---------------------------------------------------------------------
  // Single handlers.

  /**
   * `createRoom` is idempotent: once it has succeeded, calling it again,
   * whatever the engine would answer, changes nothing and sends the same
   * capabilities again.
   */
  lemma CreateRoomIdempotent(s: ServerState, first: Answer<RtpCapabilities>, again: Answer<RtpCapabilities>)
    ensures var r1 := HandleCreateRoom(s, first);
            r1.outcome.thrown.None? ==> HandleCreateRoom(r1.state, again) == r1
  {
  }

  /** `connection-success` ignores the audio producer slot. */
  lemma ExistsProducerIgnoresAudio(s: ServerState, audio: Option<Producer>, socketId: string)
    ensures HandleConnection(s.(audioProducer := audio), socketId).outcome == HandleConnection(s, socketId).outcome
  {
  }

  /**
   * A second produce of the same kind silently replaces the first producer:
   * the slot holds the new one, which has a different id, and the callback
   * reports the new id.
   */
  lemma ProduceSameKindReplaces(s: ServerState, kind: string, first: RtpParameters, second: RtpParameters)
    requires Valid(s) && s.producerTransport.Some?
    ensures var r1 := HandleProduce(s, kind, first, Accepted);
            var r2 := HandleProduce(r1.state, kind, second, Accepted);
            && ProducerIn(r1.state, kind == "video").Some?
            && ProducerIn(r2.state, kind == "video").Some?
            && ProducerIn(r2.state, kind == "video").value.rtpParameters == second
            && ProducerIn(r2.state, kind == "video").value.id != ProducerIn(r1.state, kind == "video").value.id
            && r2.outcome == Sends(ProducerCreated(ProducerIn(r2.state, kind == "video").value.id))
            && ProducerIn(r2.state, kind != "video") == ProducerIn(s, kind != "video")
  {
  }

  /**
   * `consume` with a video producer but no audio producer fails on the
   * audio half after the video consumer has already replaced the old one.
   */
  lemma ConsumeWithoutAudioProducerKeepsVideoConsumer(cc: CanConsume, s: ServerState, caps: RtpCapabilities,
                                                       videoRtp: RtpParameters, audioAnswer: Answer<RtpParameters>)
    requires Valid(s) && s.router.Some? && s.producer.Some? && cc(s.producer.value.id, caps)
    requires s.consumerTransport.Some? && s.audioProducer.None?
    ensures var r := HandleConsume(cc, s, caps, Granted(videoRtp), audioAnswer);
            && r.outcome == Sends(ErrorReply(Undefined(AudioProducerSlot)))
            && r.state.consumer.Some? && r.state.consumer != s.consumer
            && r.state.consumer.value.producerId == s.producer.value.id
            && r.state.audioConsumer == s.audioConsumer
  {
  }

  /** `e` is a `consumer-resume` whose `resume` of the consumer in slot `video` the engine accepted. */
  predicate AcceptedResume(e: Event, video: bool) {
    e.ConsumerResume? && (if video then e.videoVerdict else e.audioVerdict).Accepted?
  }

  /**
   * One step never activates a consumer except by an accepted `resume` of
   * the same consumer while it was paused: an active consumer after the
   * step was already in its slot before it, and was either already active
   * or was resumed, with the engine accepting, by this very event.
   */
  lemma StepActivatesOnlyByResume(cc: CanConsume, s: ServerState, e: Event, video: bool)
    ensures var before := ConsumerIn(s, video);
            var after := ConsumerIn(Step(cc, s, e).state, video);
            after.Some? && !after.value.paused ==>
              && before.Some? && before.value.id == after.value.id
              && (!before.value.paused || AcceptedResume(e, video))
  {
  }

  // ---------------------------------------------------------------------
  // Whole traces.

  lemma RunSnoc(cc: CanConsume, s: ServerState, es: seq<Event>, e: Event)
    ensures Run(cc, s, es + [e]) == Step(cc, Run(cc, s, es), e).state
  {
    assert (es + [e])[..|es|] == es;
  }

  /** Running two traces in turn is running their concatenation. */
  lemma {:induction false} RunAppend(cc: CanConsume, s: ServerState, first: seq<Event>, second: seq<Event>)
    ensures Run(cc, s, first + second) == Run(cc, Run(cc, s, first), second)
    decreases |second|
  {
    if second == [] {
      assert first + second == first;
    } else {
      var n := |second|;
      RunAppend(cc, s, first, second[..n - 1]);
      assert (first + second)[..|first + second| - 1] == first + second[..n - 1];
    }
  }

  /** Every handler keeps the invariant, so every trace does. */
  lemma {:induction false} RunKeepsValid(cc: CanConsume, s: ServerState, es: seq<Event>)
    requires Valid(s)
    ensures Valid(Run(cc, s, es))
    decreases |es|
  {
    if es != [] {
      RunKeepsValid(cc, s, es[..|es| - 1]);
    }
  }

  /** Every state the server can reach from its start satisfies the invariant. */
  lemma ReachableIsValid(cc: CanConsume, es: seq<Event>)
    ensures Valid(Run(cc, Init(), es))
  {
    RunKeepsValid(cc, Init(), es);
  }

  /** No handler removes a listener, so a listener once registered stays registered. */
  lemma {:induction false} ListenersOnlyGrow(cc: CanConsume, s: ServerState, es: seq<Event>)
    ensures s.listeners <= Run(cc, s, es).listeners
    decreases |es|
  {
    if es != [] {
      ListenersOnlyGrow(cc, s, es[..|es| - 1]);
    }
  }

  /** Once created, the router is never replaced, whatever happens next. */
  lemma {:induction false} RouterNeverReplaced(cc: CanConsume, s: ServerState, es: seq<Event>)
    requires s.router.Some?
    ensures Run(cc, s, es).router == s.router
    decreases |es|
  {
    if es != [] {
      RouterNeverReplaced(cc, s, es[..|es| - 1]);
    }
  }

  /**
   * Once a video producer has been stored, the slot is never emptied again,
   * so every later `connection-success` reports `existsProducer: true`.
   */
  lemma {:induction false} ExistsProducerStaysTrue(cc: CanConsume, s: ServerState, es: seq<Event>, socketId: string)
    requires s.producer.Some?
    ensures HandleConnection(Run(cc, s, es), socketId).outcome == Sends(ConnectionSuccess(socketId, true))
    decreases |es|
  {
    if es != [] {
      ExistsProducerStaysTrue(cc, s, es[..|es| - 1], socketId);
    }
  }

  /** The consumer in slot `video` after `prefix` has id `id` and is paused. */
  predicate PausedAfter(cc: CanConsume, prefix: seq<Event>, video: bool, id: Id) {
    var c := ConsumerIn(Run(cc, Init(), prefix), video);
    c.Some? && c.value.id == id && c.value.paused
  }

  /**
   * Consumers are created paused and become active only on resume: if the
   * consumer in a slot is active after a trace, some earlier
   * `consumer-resume` found that same consumer paused and the engine
   * accepted its `resume`.
   */
  lemma {:induction false} ActiveConsumerWasResumedWhilePaused(cc: CanConsume, es: seq<Event>, video: bool)
    requires var c := ConsumerIn(Run(cc, Init(), es), video); c.Some? && !c.value.paused
    ensures exists j :: 0 <= j < |es| && AcceptedResume(es[j], video)
                        && PausedAfter(cc, es[..j], video, ConsumerIn(Run(cc, Init(), es), video).value.id)
    decreases |es|
  {
    var n := |es|;
    var prefix := es[..n - 1];
    var before := ConsumerIn(Run(cc, Init(), prefix), video);
    var id := ConsumerIn(Run(cc, Init(), es), video).value.id;
    StepActivatesOnlyByResume(cc, Run(cc, Init(), prefix), es[n - 1], video);
    if before.value.paused {
      assert es[..n - 1] == prefix;
      assert PausedAfter(cc, es[..n - 1], video, id);
    } else {
      ActiveConsumerWasResumedWhilePaused(cc, prefix, video);
      var j :| 0 <= j < |prefix| && AcceptedResume(prefix[j], video) && PausedAfter(cc, prefix[..j], video, id);
      assert prefix[..j] == es[..j];
      assert es[j] == prefix[j];
    }
  }

  /**
   * In any reachable state the close listeners as written never read an
   * unset slot: a listener that names a slot is registered only after that
   * slot was set, and slots of producers and consumers are never emptied.
   */
  lemma AsWrittenListenersNeverThrow(cc: CanConsume, es: seq<Event>, id: Id, cause: ConsumerCloseCause)
    ensures ProducerTransportCloseAsWritten(Run(cc, Init(), es), id).outcome == Quiet
    ensures AudioConsumerCloseAsWritten(Run(cc, Init(), es), id, cause).outcome == Quiet
  {
    ReachableIsValid(cc, es);
  }
}
