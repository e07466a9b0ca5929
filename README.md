# Signalling server of a one-room mediasoup broadcast, in Dafny

`server.js` runs a socket.io signalling server in front of a mediasoup
router. One publisher page sends a video and an audio track; subscriber
pages receive them. The server keeps a single global record of optional
slots: the router, a send (producer) transport, a receive (consumer)
transport, the video and audio producers and the video and audio consumers.
Each socket event handler reads some slots and overwrites others. Some
listeners registered on mediasoup handles close a handle when the engine
reports a closed DTLS state, a closed transport or a closed producer. The
others only log.

This project models that state machine and proves properties of it.

- `wrappers.dfy`: `Option`.
- `engine.dfy`: the mediasoup engine as an opaque collaborator.
  - Handles are records: `Router`, `Transport`, `Producer` and `Consumer`.
    Each holds an id and the flags the server can observe: closed, paused,
    and the DTLS parameters a transport was connected with.
  - Each engine call is a parameter the caller supplies. `Answer<T>` is a
    granted value or a denial with a reason. `Verdict` says whether
    `connect`, `produce` or `resume` was accepted.
  - `router.canConsume` is an uninterpreted function `CanConsume`.
  - Fresh ids come from a counter kept in the state.
- `signaling.dfy`: the pure model.
  - `ServerState` holds the seven slots, the set of registered listeners
    and the next fresh id.
  - There is one handler function per socket or engine event. It returns
    the new state and the `Outcome`: the message sent to the client, and
    the fault the async handler throws.
  - Reading a property of an unset slot, a TypeError in the source, is
    `Undefined(slot)`. A rejected engine promise is `Rejected(reason)`.
  - `Valid` is the invariant every handler keeps:
    - ids are fresh and distinct;
    - the producer kinds match their slots;
    - each handle in a slot has its listeners registered;
    - a listener that reads a slot exists only once that slot is set.
  - `Step` dispatches one `Event`. `Run` folds a trace of events.
- `properties.dfy`: lemmas about single handlers and about whole traces.
  These are: invariant preservation, the router is never replaced,
  `existsProducer` stays true, and a consumer is active only after a
  `consumer-resume` that the engine accepted found it paused.
- `scenarios.dfy`: concrete runs.
  - Publish then subscribe, in the order the two client pages send their
    requests. The subscriber page sends `createWebRtcTransport`, then
    `consume`. Its first local consume raises `transport-recv-connect`. Then
    it sends `consumer-resume`.
  - A subscriber before any publisher.
  - The two runs that exhibit the findings below.
- `server.dfy`: `SignalingServer`, a class whose fields are the module-level
  variables.
  - It has one method per socket event and per engine event.
  - Each method body follows the source's statements in order. The close
    listeners call `close()` on whatever the field holds, as written.
  - Each method's postcondition says the new fields and the outcome are
    exactly the handler function's transition from the old fields. So
    every lemma about the handlers and about `Run` holds of the object too.

The code is not a per-peer protocol that checks the order of requests,
and the model follows the code:
- There is one global slot per role, not a registry per peer.
- A request sent out of order is not rejected. It fails with a TypeError
  only when it reads an unset slot. Otherwise it goes ahead: for instance
  `transport-produce` or `consume` before the transport's `connect`.
- A second `produce` of the same kind overwrites the slot and leaves the
  earlier producer open.
- A failed transport creation clears the targeted slot.
- `consume` before any producer reports that TypeError as `params.error`.
- A failed `createRoom` rejects the async handler's promise, and nothing
  handles that rejection. The same holds for every fault a socket event
  handler throws. Under Node's default for unhandled rejections (Node 15
  and later) this ends the process.
- The close listeners as written are synchronous. A fault in one of them
  would be thrown inside the engine's event emission, not as a rejection.
  In a reachable state they never throw (`AsWrittenListenersNeverThrow`).

## Model

| member | source | states |
|---|---|---|
| Signaling.HandleConnection | server.js:68-73 | nothing changes; `connection-success` carries the socket id, and `existsProducer` is true exactly when the video producer slot is set |
| Signaling.HandleCreateRoom | server.js:79-97 | only the router slot may change. A set router is reused unchanged. Otherwise a granted engine answer creates a router with a fresh id. The reply is the stored router's capabilities exactly when no fault is thrown. A denial throws and leaves the slot unset. The invariant is kept |
| Signaling.HandleCreateWebRtcTransport | server.js:99-105 | only the targeted transport slot (send when `sender`, receive otherwise) changes. It holds a fresh, unconnected transport exactly when the router is set and the engine granted one, and the reply carries that transport's id and parameters. Otherwise the slot is cleared and the reply is `params.error` (an unset router, or the engine's reason). Nothing is thrown; the invariant is kept. The listener set gains the new transport's DTLS listener on success and nothing otherwise |
| Signaling.HandleConnect | server.js:107-110 | for `transport-connect` (and `transport-recv-connect`, 152-155, with `sender` false): only that transport slot changes. An unset slot throws `Undefined`. A refused `connect` throws the engine's reason and changes nothing. Otherwise the transport records the client's DTLS parameters. No reply is sent |
| Signaling.HandleProduce | server.js:112-150 | kind "video" writes only `producer`; any other kind writes only `audioProducer`. With a send transport and an accepted `produce`, the slot holds a new open producer with a fresh id on that transport, and the callback carries that id. An unset transport or a refusal throws and changes nothing. An accepted produce adds the new producer's close listener and keeps every earlier one; otherwise the listener set is unchanged |
| Signaling.HandleConsume | server.js:157-221 | only the two consumer slots change. An unset router or video producer is reported as `params.error`, with no change. A failed `canConsume` on the video producer sends nothing and changes nothing. Once `canConsume` passed, every failure is reported as `params.error`. An unset receive transport or a denied video consume changes nothing. An unset audio producer or a denied audio consume leaves the new paused video consumer stored. `ConsumersCreated` is sent exactly when every step succeeds. Then the slots hold two open, paused consumers on the receive transport, with fresh ids, the kinds of the current video and audio producers, and the engine's RTP parameters, and the reply describes them. An error reply never touches the audio consumer. A consumer that changed is paused. Nothing is thrown. The listener set gains the video consumer's two listeners once that consumer is stored, and the audio consumer's two only on success; earlier listeners stay |
| Signaling.HandleConsumerResume | server.js:223-227 | each consumer slot is unchanged or holds the same consumer resumed. The audio consumer changes only after the video one was resumed (or was already active). The handler completes without a fault exactly when both slots are set and both resumes are accepted, and then both consumers are active. An unset video consumer or a refused video resume throws, with no change. An accepted video resume leaves the video consumer resumed even when the audio half then fails: an unset audio consumer throws `Undefined`, and a refused audio resume throws its reason and leaves the audio consumer unchanged. A consumer that changed had its resume accepted |
| Signaling.HandleDisconnect | server.js:229-231 | the state is unchanged; nothing is sent or thrown |
| Signaling.HandleDtlsStateChange | server.js:255-259 | only a transport whose id is the event's can change, and only to the same transport closed. When the state is "closed", a registered transport in a slot is closed. Any other DTLS state changes nothing |
| Signaling.HandleProducerTransportClose | server.js:124-127 | the `transportclose` listener as evidently intended (also 140-143); `Step` runs the one as written. Only the producer whose id is the event's can change, and only to itself closed; when it is in its slot it ends up closed. The invariant is kept |
| Signaling.HandleConsumerClose | server.js:195-202 | the audio-consumer listener as evidently intended; `Step` runs the one as written. Only the audio consumer whose id is the event's can change, and only to itself closed. The video consumer's listeners (173-179) only log, so the video slot never changes |
| Signaling.ProducerTransportCloseAsWritten | server.js:124-127 | the listener as written (also 140-143), which is what `Step` runs. Only the producer slots change, and listeners and ids stay. With no registered listener for the event the state is unchanged. In a valid state it never throws, and a registered listener leaves in its slot the previous occupant, whatever its id, closed. The invariant is kept |
| Signaling.AudioConsumerCloseAsWritten | server.js:195-202 | the listener as written, which is what `Step` runs. Only the audio consumer slot changes, and listeners and ids stay. With no registered listener for the event the state is unchanged. In a valid state it never throws, and a registered listener leaves in the slot the previous audio consumer, whatever its id, closed. The invariant is kept |
| Signaling.Step | server.js:68-259 | one event as server.js handles it, with the close listeners as written. Every event keeps the invariant, never replaces a set router, never empties the video producer slot, and never decreases the next id. No event removes a listener |
| SignalingProperties.CreateRoomIdempotent | server.js:79-97 | after a `createRoom` that did not throw, another `createRoom` changes nothing and sends the same capabilities, whatever the engine would answer |
| SignalingProperties.ExistsProducerIgnoresAudio | server.js:70-73 | `connection-success` does not depend on the audio producer slot |
| SignalingProperties.ProduceSameKindReplaces | server.js:116-148 | two accepted produces of one kind leave the second producer in the slot, with a new id and the second RTP parameters. The callback reports the new id, and the other kind's slot is untouched |
| SignalingProperties.ConsumeWithoutAudioProducerKeepsVideoConsumer | server.js:164-189 | with no audio producer, `consume` reports the failed read of `audioProducer.id` after the new video consumer has replaced the old one, and the audio consumer slot is untouched |
| SignalingProperties.StepActivatesOnlyByResume | server.js:223-227 | a consumer active after an event was in its slot before it, and was already active or the event was a `consumer-resume` whose resume of that slot the engine accepted |
| SignalingProperties.RunKeepsValid | server.js:24-31 | every trace from a valid state ends in a valid state |
| SignalingProperties.ReachableIsValid | server.js:24-31 | every state reachable from the start, with every slot unset, is valid |
| SignalingProperties.ListenersOnlyGrow | server.js:112-259 | every listener registered before a trace is still registered after it: the listeners of replaced handles stay, which both findings below rely on |
| SignalingProperties.RouterNeverReplaced | server.js:79-88 | once set, the router slot keeps the same router through every trace |
| SignalingProperties.ExistsProducerStaysTrue | server.js:70-73 | once a video producer is stored, every later `connection-success` reports `existsProducer: true` |
| SignalingProperties.ActiveConsumerWasResumedWhilePaused | server.js:164-227 | if a consumer slot holds an active consumer after a trace from the start, some earlier `consumer-resume` whose resume of that slot the engine accepted found that same consumer paused |
| SignalingProperties.AsWrittenListenersNeverThrow | server.js:124-127 | in every reachable state the producer and audio-consumer close listeners as written never read an unset slot. This covers the video and audio producer listeners (124-127, 140-143) and both audio consumer listeners (195-202) |
| SignalingScenarios.PublishThenSubscribe | server.js:79-227 | after publish then subscribe, in the pages' order, the subscriber's `createRoom` reuses router 0. `consume` replies with consumers 5 and 6, naming producers 2 and 3, and stores both paused. After `transport-recv-connect` and `consumer-resume` both are active |
| SignalingScenarios.SubscribeBeforePublish | server.js:157-166 | a subscriber before any publisher gets `params.error` for the unset video producer from `consume`, and no consumer is created |
| SignalingScenarios.StaleProducerListenerClosesCurrentProducer | server.js:124-127 | after a second video publish, the old producer's listener as written closes the new producer. The corrected listener changes nothing |
| SignalingScenarios.StaleAudioConsumerListenerClosesCurrentConsumer | server.js:195-202 | after a second subscriber, the first audio consumer's listener as written closes the second subscriber's audio consumer. The corrected listener changes nothing |
| Server.SignalingServer.constructor | server.js:24-31 | every slot starts unset, with no listeners; the start state is valid |
| Server.SignalingServer.OnConnection | server.js:68-73 | changes nothing; the greeting is `HandleConnection`'s, and `existsProducer` holds exactly when the video producer field is set |
| Server.SignalingServer.CreateRoom | server.js:79-91 | the new fields and outcome are `HandleCreateRoom`'s transition; the invariant is kept |
| Server.SignalingServer.GetRtpCapabilities | server.js:93-97 | with a router set, sends the router's capabilities and changes nothing |
| Server.SignalingServer.NewWebRtcTransport | server.js:234-285 | yields the transport and reply of `HandleCreateWebRtcTransport` and registers the DTLS listener. No slot is assigned |
| Server.SignalingServer.CreateWebRtcTransport | server.js:99-105 | the new fields and outcome are `HandleCreateWebRtcTransport`'s transition; the invariant is kept |
| Server.SignalingServer.TransportConnect | server.js:107-110 | the new fields and outcome are `HandleConnect`'s transition for the send transport |
| Server.SignalingServer.TransportProduce | server.js:112-150 | the new fields and outcome are `HandleProduce`'s transition |
| Server.SignalingServer.TransportRecvConnect | server.js:152-155 | the new fields and outcome are `HandleConnect`'s transition for the receive transport |
| Server.SignalingServer.Consume | server.js:157-221 | the new fields and outcome are `HandleConsume`'s transition under the router's `canConsume` |
| Server.SignalingServer.CreateVideoConsumer | server.js:166-188 | stores a paused consumer of the current video producer on the receive transport, with a fresh id and its two logging listeners. Nothing else changes, and the reply parameters describe that consumer |
| Server.SignalingServer.CreateAudioConsumer | server.js:190-209 | stores a paused consumer of the current audio producer on the receive transport, with a fresh id and its two close listeners. Nothing else changes, and the reply parameters describe that consumer |
| Server.SignalingServer.CreateConsumers | server.js:164-213 | once the checks passed, stores the paused video consumer, then the audio one. The new fields and outcome are `HandleConsume`'s transition |
| Server.SignalingServer.ConsumerResume | server.js:223-227 | the new fields and outcome are `HandleConsumerResume`'s transition |
| Server.SignalingServer.Disconnect | server.js:229-231 | changes nothing; sends and throws nothing |
| Server.SignalingServer.OnDtlsStateChange | server.js:255-259 | the new fields are `HandleDtlsStateChange`'s transition |
| Server.SignalingServer.OnProducerTransportClose | server.js:124-127 | the new fields and outcome are the transition of the listener as written, `ProducerTransportCloseAsWritten` (also 140-143); the invariant is kept |
| Server.SignalingServer.OnConsumerClose | server.js:195-202 | the new fields and outcome are the transition of the audio listener as written, `AudioConsumerCloseAsWritten`; the invariant is kept |

## Left out

- The HTTPS and Next.js bootstrap, TLS key loading, and listen and error handling (server.js:1-22, 287-294) are process and I/O plumbing.
- The mediasoup worker lifecycle is foreign, process-level behaviour. This covers worker creation and the `died` listener that exits the process (server.js:49-66).
- The chat relay (server.js:75-77) is a stateless string broadcast.
- Socket.io delivery and concurrency are not modelled. Handlers run one at a time, to completion. Interleaving at the `await`s of concurrent async handlers is not modelled.
- The codec table and the transport options are engine configuration. This covers the listen IPs and the UDP/TCP preferences (server.js:32-47, 236-247). RTP, DTLS and ICE parameters are opaque strings.
- `appData` in `transport-produce` is ignored by the source and is not modelled.
- The engine's internal behaviour is not modelled.
  - Closing a transport does not by itself close that transport's producers and consumers. The engine's `transportclose` and `producerclose` notifications are separate events the trace supplies.
  - What `canConsume` decides is not modelled.
  - When `connect`, `produce`, `consume` and `resume` fail, only the fact of failure is modelled, through the supplied verdicts and answers.
- The transport's `close` listener (server.js:261-263) only logs. It is not modelled.
- The video consumer's listeners (server.js:173-179) only log. They are kept as registered listeners, and their events change no state.
- A fault a socket event handler throws is an unhandled promise rejection. Under Node's default handling this would end the process. The model records the fault in `Outcome.thrown` and goes on handling later events from the state the handler left.
- `console.log` output is not modelled.

## Findings

| source | as written | input that shows it | evidently intended | confidence | as-written member | corrected member |
|---|---|---|---|---|---|---|
| server.js:124-127 | the producer's `transportclose` listener calls `producer.close()` on the module variable, so it closes whichever producer the slot holds when the event fires (the same holds for `audioProducer`, 140-143) | video is published on transport 1 (producer 2), then again on a new transport 3 (producer 4); transport 1 reaches DTLS state "closed" and the engine fires `transportclose` on producer 2: producer 4, whose transport is open, is closed | close the producer the event fired on, leaving the new producer open | not executed; medium (relies on mediasoup firing `transportclose` on the replaced producer) | Signaling.ProducerTransportCloseAsWritten, SignalingScenarios.StaleProducerListenerClosesCurrentProducer | Signaling.HandleProducerTransportClose |
| server.js:195-202 | the audio consumer's `transportclose` and `producerclose` listeners call `audioConsumer.close()` on the module variable, so they close whichever audio consumer the slot holds | after publishing, subscriber 1 consumes on transport 4 (audio consumer 6) and subscriber 2 on transport 7 (audio consumer 9); transport 4 reaches DTLS state "closed" and the engine fires `transportclose` on consumer 6: consumer 9, the second subscriber's, is closed | close the consumer the event fired on | not executed; medium (relies on mediasoup firing `transportclose` on the replaced consumer) | Signaling.AudioConsumerCloseAsWritten, SignalingScenarios.StaleAudioConsumerListenerClosesCurrentConsumer | Signaling.HandleConsumerClose |

`Step` and `SignalingServer` run both listeners as written. The corrected
members are proved beside them and describe what the listeners evidently
meant to do.
