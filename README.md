# ngx-mqtt-client: the MqttService core in Dafny

This project models `MqttService`, the Angular service of ngx-mqtt-client. The
service shares one MQTT.js client among many topic subscriptions. It keeps three
pieces of state:

- a connection status, CONNECTED at first;
- a topic store that maps each topic to its subscription grant and its stream;
- the client handle.

The operations are `subscribeTo`, `unsubscribeFrom`, `publishTo`, `end`,
`status`, `connect`, the client's `message`/`offline`/`connect` hooks, and the
private helpers `addTopic`, `removeTopic`, `updateTopic` and `throwError`.

How the model is laid out:

- `mqtt_types.dfy` (`MqttTypes`): grants, options, errors, JSON data, JavaScript
  values, payloads, inbound messages, and the calls the service makes on
  MQTT.js. `throwError` is the constant `NoConnectionError`.
- `payload.dfy` (`Payload`): `publishTo`'s payload choice. A Buffer passes
  through; the other values are chosen by `typeof`. Also `updateTopic`'s lenient
  decoding (JSON if it parses, else the raw text), and the round trip between
  the two.
- `status_tracker.dfy` (`StatusTracker`): `distinctUntilChanged` over the status
  values, with its incremental characterisation.
- `topic_stream.dfy` (`TopicStream`): a topic's RxJS `Subject`. It holds every
  value pushed into it and, for each observer that joined, what that observer
  has seen and whether it was completed.
- `subscription.dfy` (`Subscription`): `subscribeTo`'s choice of branch (status
  gate, deduplication, broker call) and the empty-grant workaround.
- `mqtt_service.dfy` (`MqttServiceModel`): the class `MqttService`. Its fields
  are the current client number, every status value pushed so far, the store
  (`map<string, Entry>`) and a log of the connect, subscribe, unsubscribe,
  publish and end calls made into MQTT.js. Each method is one
  synchronous step. Broker answers (subscribe grants or error, unsubscribe and
  publish errors) and the old client's `connected` flag are parameters.
- `scenarios.dfy` (`Scenarios`): clients of the class. They replay the
  expectations of `mqtt.service.spec.ts` and the subscribe / receive / end
  scenario.

Three behaviours of the code are easy to misread; the model follows the code:

- A message for a topic that is not in the store is not silently dropped.
  `updateTopic` reads `.stream` of `undefined` and throws a TypeError. The model
  returns `Failed(MissingEntryError)` and leaves the store unchanged.
- Re-subscribing to a registered topic completes the observers already attached
  to its stream. It then replays the stored grant, even when the new request
  asks for another qos.
- The synthesized qos is `options ? options.qos : 0`. Options given without a
  `qos` yield an undefined qos (`None`), not 0.

## Model

| member | source | states |
|---|---|---|
| `Payload.EncodePayload` | src/app/ngx-mqtt-client/services/mqtt.service.ts:109-124 | a Buffer is passed unchanged; a string is passed as itself; a number becomes its `toString`; a boolean becomes "true"/"false"; an object (null included) becomes its `JSON.stringify` text; the payload is left unset exactly for undefined, function, symbol and bigint values; only a Buffer yields a binary payload |
| `Payload.DecodeMessage` | src/app/ngx-mqtt-client/services/mqtt.service.ts:154-159 | the message is the raw text exactly when `JSON.parse` throws, and otherwise the parsed value |
| `Payload.PublishedValueArrivesDecoded` | src/app/ngx-mqtt-client/services/mqtt.service.ts:109-124 | publish, then receive the same bytes through the `message` hook's `toString` and `updateTopic`'s decoding, where the text survives its wire encoding: an object whose JSON text parses back arrives as that object; a non-JSON string arrives as itself; a boolean arrives as the JSON boolean |
| `StatusTracker.DistinctUntilChanged` | src/app/ngx-mqtt-client/services/mqtt.service.ts:139-142 | no two consecutive emissions are equal; the first emission is the first status and the last is the latest; no more emissions than raw values |
| `StatusTracker.NoRepeatsPassThrough` | src/app/ngx-mqtt-client/services/mqtt.service.ts:139-142 | a status sequence without repeats is emitted unchanged |
| `StatusTracker.DistinctUntilChangedIdempotent` | src/app/ngx-mqtt-client/services/mqtt.service.ts:139-142 | filtering the emissions again changes nothing |
| `StatusTracker.DistinctUntilChangedAppend` | src/app/ngx-mqtt-client/services/mqtt.service.ts:139-142 | one more raw status adds one emission exactly when it differs from the latest raw status |
| `TopicStream.EmptyStream` | src/app/ngx-mqtt-client/services/mqtt.service.ts:164 | a new Subject has carried nothing and has no observers |
| `TopicStream.Join` | src/app/ngx-mqtt-client/services/mqtt.service.ts:59 | a caller joining the stream is appended as an open observer that has seen nothing; earlier observers and values are untouched; the stream invariant is kept |
| `TopicStream.CompleteAll` | src/app/ngx-mqtt-client/services/mqtt.service.ts:58 | every observer is completed and keeps what it saw; the stream invariant is kept |
| `TopicStream.Emit` | src/app/ngx-mqtt-client/services/mqtt.service.ts:160 | `next` appends the value to the stream and to every open observer; completed observers are unchanged; the stream invariant is kept |
| `TopicStream.EmitAllInOrder` | src/app/ngx-mqtt-client/services/mqtt.service.ts:160 | an open observer receives every pushed message in push order, with none lost or repeated; a completed one receives nothing |
| `TopicStream.OpenObserverSeesTail` | src/app/ngx-mqtt-client/services/mqtt.service.ts:160 | an open observer has seen exactly the stream's values since it joined |
| `Subscription.GrantFromReply` | src/app/ngx-mqtt-client/services/mqtt.service.ts:69-73 | the grant is the broker's first grant when there is one; otherwise it names the requested topic with qos 0 when no options were given, or with `options.qos` when they were |
| `Subscription.WorkaroundMatchesEchoingBrokerIffQosGiven` | src/app/ngx-mqtt-client/services/mqtt.service.ts:69-74 | against a broker that grants the qos the request carries on the wire (0 when none is given), the synthesized grant equals the broker's exactly when the request does not give options without a qos; there it reports an undefined qos where the broker granted 0 |
| `Subscription.AbsentQosIsNotDefaulted` | src/app/ngx-mqtt-client/services/mqtt.service.ts:69 | options without a qos give an undefined qos; only absent options give qos 0 |
| `Subscription.SubscribeStepAsksBrokerIffNew` | src/app/ngx-mqtt-client/services/mqtt.service.ts:51-62 | the broker is asked exactly when connected and the topic is unregistered; the request is rejected exactly when disconnected; a registered topic replays its own entry |
| `Subscription.InheritedNameNeverReachesBroker` | src/app/ngx-mqtt-client/services/mqtt.service.ts:55 | as written, a connected request for the unregistered topic "toString" throws instead of reaching the broker, which the own-key reading asks |
| `Subscription.AsWrittenAgreesOffInheritedNames` | src/app/ngx-mqtt-client/services/mqtt.service.ts:55 | the as-written and own-key branch choices agree on every topic not named like an inherited member |
| `MqttServiceModel.MqttService.constructor` | src/app/ngx-mqtt-client/services/mqtt.service.ts:25-35 | the status starts CONNECTED, the store starts empty, and one client is created with the configuration |
| `MqttServiceModel.MqttService.Status` | src/app/ngx-mqtt-client/services/mqtt.service.ts:139-142 | for a subscriber present since construction, `status()` starts with CONNECTED, ends with the current status, and never repeats a value back to back |
| `MqttServiceModel.MqttService.StatusSince` | src/app/ngx-mqtt-client/services/mqtt.service.ts:139-142 | a subscriber that joins later first gets the status current when it joined (the BehaviorSubject's replay, :25), ends with the current status, never sees a value twice in a row, and sees at most one emission per value pushed since it joined |
| `MqttServiceModel.MqttService.Connect` | src/app/ngx-mqtt-client/services/mqtt.service.ts:37-42 | the old client is ended with force true only when it reports itself connected; then a new client is created; store and status are untouched |
| `MqttServiceModel.MqttService.PushStatus` | src/app/ngx-mqtt-client/services/mqtt.service.ts:44-45 | a pushed status is appended, and `status()` gains it exactly when it differs from the current status |
| `MqttServiceModel.MqttService.OnOffline` | src/app/ngx-mqtt-client/services/mqtt.service.ts:44 | an `offline` event makes the status DISCONNECTED, emitted once whatever came before |
| `MqttServiceModel.MqttService.OnConnect` | src/app/ngx-mqtt-client/services/mqtt.service.ts:45 | a `connect` event makes the status CONNECTED, emitted once whatever came before |
| `MqttServiceModel.MqttService.OnMessage` | src/app/ngx-mqtt-client/services/mqtt.service.ts:43 | the payload's text is decoded and pushed onto that topic's stream only; a topic without an entry fails and changes nothing |
| `MqttServiceModel.MqttService.UpdateTopic` | src/app/ngx-mqtt-client/services/mqtt.service.ts:153-161 | the decoded message is pushed onto the topic's stream and every other entry is unchanged; a topic missing from the store fails and changes nothing |
| `MqttServiceModel.MqttService.AddTopic` | src/app/ngx-mqtt-client/services/mqtt.service.ts:163-166 | the topic maps to the grant and a fresh stream whose only observer is the caller, who has seen nothing |
| `MqttServiceModel.MqttService.SubscribeTo` | src/app/ngx-mqtt-client/services/mqtt.service.ts:48-87 | disconnected: fails with "No connection with MQTT." and changes nothing. Registered: no broker call; the stored grant is returned; old observers are completed and the caller joins. Otherwise: exactly one broker subscribe with the caller's topic and options. A broker error comes back unchanged and nothing is registered. On success the grant is returned and the topic maps to it with a fresh stream |
| `MqttServiceModel.MqttService.RemoveTopic` | src/app/ngx-mqtt-client/services/mqtt.service.ts:145-151 | the topic's entry, if any, is removed and nothing else changes |
| `MqttServiceModel.MqttService.UnsubscribeFrom` | src/app/ngx-mqtt-client/services/mqtt.service.ts:89-103 | every named topic leaves the store, and absent ones are ignored; then exactly one broker unsubscribe gets the argument as given; a broker error is the result |
| `MqttServiceModel.MqttService.PublishTo` | src/app/ngx-mqtt-client/services/mqtt.service.ts:105-130 | exactly one broker publish gets the topic, the encoded payload and the options as given; a broker error is the result; store and status are untouched |
| `MqttServiceModel.MqttService.StoreKeys` | src/app/ngx-mqtt-client/services/mqtt.service.ts:133 | every registered topic is listed exactly once |
| `MqttServiceModel.MqttService.End` | src/app/ngx-mqtt-client/services/mqtt.service.ts:132-137 | the store ends empty; exactly two calls follow: one batched unsubscribe naming every previously registered topic once, then `end(force, cb)` |
| `Scenarios.SubscribeWhileOffline` | src/app/ngx-mqtt-client/services/mqtt.service.spec.ts:52-60 | after an `offline` event, subscribing fails with the no-connection error; no subscribe call is made and no topic is registered |
| `Scenarios.SubscribeRejectedByBroker` | src/app/ngx-mqtt-client/services/mqtt.service.spec.ts:62-73 | a broker subscribe error reaches the caller unchanged after one subscribe call, and nothing is registered |
| `Scenarios.SubscribeTwice` | src/app/ngx-mqtt-client/services/mqtt.service.spec.ts:96-108 | two subscribes to one topic make one broker subscribe; the second gets the first grant even when it asks another qos; the first observer is completed |
| `Scenarios.SubscribeWithEmptyGrant` | src/app/ngx-mqtt-client/services/mqtt.service.spec.ts:84-94 | an empty acknowledgement gives grant qos 0 without options, and the requested qos with them |
| `Scenarios.FooBarRoundTrip` | src/app/ngx-mqtt-client/services/mqtt.service.spec.ts:75-82 | subscribe "fooBar" at qos 1: grant {fooBar, 1}. `{"bar":"foo"}` is then received decoded. `end(true)` then unsubscribes ["fooBar"] before ending with force, and the store ends empty |
| `Scenarios.MessageAfterUnsubscribe` | src/app/ngx-mqtt-client/services/mqtt.service.ts:145-161 | after unsubscribing, a message for the topic is not delivered |
| `Scenarios.UnsubscribeList` | src/app/ngx-mqtt-client/services/mqtt.service.spec.ts:122-143 | an array is passed whole to one unsubscribe call, and the broker's error is the result |
| `Scenarios.PublishStringAndBuffer` | src/app/ngx-mqtt-client/services/mqtt.service.spec.ts:147-169 | a string is published as itself and a Buffer untouched, with the options left undefined |
| `Scenarios.StatusEmissions` | src/app/ngx-mqtt-client/services/mqtt.service.spec.ts:202-214 | `status()` gives CONNECTED, then DISCONNECTED once over repeated `offline` events, then CONNECTED once over repeated `connect` events |
| `Scenarios.LateStatusSubscriber` | src/app/ngx-mqtt-client/services/mqtt.service.ts:25 | a `status()` subscriber joining after an `offline` event first gets DISCONNECTED, then CONNECTED once over repeated `connect` events |
| `Scenarios.PublishedObjectReachesSubscriber` | src/app/ngx-mqtt-client/services/mqtt.service.ts:43 | an object published on a subscribed topic is sent as its JSON text; when the broker delivers those bytes back, the subscriber receives the object |
| `Scenarios.ReconnectEndsConnectedClient` | src/app/ngx-mqtt-client/services/mqtt.service.spec.ts:194-198 | reconnecting while connected ends the old client with force true before creating the new one |

## Left out

- The MQTT.js client itself: connecting, the wire protocol and the asynchrony of
  its callbacks. It is a foreign library. The model keeps a log of the calls made
  into it and takes its answers as parameters. The qos MQTT.js puts in a
  SUBSCRIBE request (0 unless one is given) is `Subscription.WireQos`.
- MqttServiceModel.MqttService.Connect: the three `client.on` hook
  registrations (mqtt.service.ts:43-45) and the read of `client.connected` (:38)
  are not logged. The hooks are the methods `OnMessage`, `OnOffline` and
  `OnConnect`, and the `connected` flag is a parameter.
- RxJS scheduling. `subscribeTo` re-runs its gate through `switchMap` on every
  later status emission; that re-run is not modelled. Each operation is one
  synchronous step.
- Subscribe acknowledgements that arrive interleaved with other operations are
  not modelled. As written, a second `subscribeTo` for a topic whose first
  acknowledgement is still pending asks the broker again, and `addTopic` then
  overwrites the first entry.
- `end`'s `_status.unsubscribe()` is not modelled. It closes the status subject,
  so status events and subscriptions after `end` would throw in RxJS.
- `Subject` internals are not modelled: how `next` and `complete` walk the
  observer array, and what `stream.unsubscribe()` does to observers when
  `removeTopic` drops an entry. Completion is modelled per observer.
- The `manageConnectionManually` constructor branch and the Angular wiring
  (`app.module.ts`, `ngx-mqtt-client.module.ts`, the injection tokens and the
  mock client). The constructor models the default path, which connects at
  construction, so a client always exists. Calling the service before any
  client exists is not modelled.
- `app.component.ts` is a UI demo with console output. It is not part of this
  model.
- `JSON.stringify`, `JSON.parse`, `Number.prototype.toString` and
  `Buffer.prototype.toString` are the fields of `JsLibrary`, left uninterpreted.
  Their text formats and floating-point number formatting are not modelled.
  Numbers are IEEE-754 bit patterns.
- The order of `Object.keys`: `End` unsubscribes the registered topics in some
  order, each once.
- Events from a client that `connect` has replaced are not modelled. The hooks
  model events of the current client only.
- Subscribe and publish options other than `qos` (and `retain`/`dup` for
  publish, which are only forwarded) are not modelled.
- MqttServiceModel.MqttService.SubscribeTo: reads the store by own keys, as
  `Subscription.SubscribeStep` does. The as-written TypeError for topics named
  like `Object.prototype` members is modelled separately (see Findings).
- MqttServiceModel.MqttService.RemoveTopic: reads the store by own keys. As
  written, `removeTopic("toString")` reads `.stream` of an inherited function
  and throws before the broker unsubscribe. That is the same defect as the
  finding below.
- MqttServiceModel.MqttService.UpdateTopic: reads the store by own keys. As
  written, a message on the topic "toString" throws a TypeError, as a message
  for any unregistered topic does.

## Findings

| source | as written | input that shows it | evidently intended | confidence | as-written member | corrected member |
|---|---|---|---|---|---|---|
| src/app/ngx-mqtt-client/services/mqtt.service.ts:55 | `if (this._store[topic])` reads a property of a plain `{}` object. Names inherited from `Object.prototype` are therefore treated as registered, and `stream.observers` of the missing entry then throws a TypeError | `subscribeTo("toString")` while connected, with no topic registered | a topic counts as registered only when `addTopic` stored it, so the broker is asked | high; not executed | `Subscription.SubscribeStepAsWritten`, `Subscription.InheritedNameNeverReachesBroker` | `Subscription.SubscribeStep`, `Subscription.SubscribeStepAsksBrokerIffNew` |
