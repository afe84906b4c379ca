/**
 * Clients of `MqttService` that replay the behaviour the service's tests
 * (mqtt.service.spec.ts) expect, proved from the class's contracts alone.
 */
module Scenarios {
  import opened MqttTypes
  import opened Payload
  import opened StatusTracker
  import opened TopicStream
  import opened Subscription
  import opened MqttServiceModel

  /** The configuration the tests construct the service with. */
  const TestOptions := ClientOptions(map["host" := "broker.hivemq.com", "protocol" := "ws",
    "port" := "8000", "path" := "/mqtt", "keepalive" := "5"])

  /** While offline, a subscribe fails with the no-connection error and leaves client and store alone. */
  method SubscribeWhileOffline(topic: string, options: Option<SubscribeOptions>, reply: Result<seq<SubscriptionGrant>>)
    returns (r: Result<Subscribed>, log: seq<Call>, topics: set<string>)
    ensures r == Err(NoConnectionError)
    ensures log == [Call(0, ConnectOp(TestOptions))]
    ensures topics == {}
  {
    var svc := new MqttService(TestOptions);
    svc.OnOffline();
    r := svc.SubscribeTo(topic, options, reply);
    log := svc.calls;
    topics := svc.store.Keys;
  }

  /**
   * A broker error on subscribe reaches the caller unchanged and registers
   * nothing.
   */
  method SubscribeRejectedByBroker(topic: string, e: Error)
    returns (r: Result<Subscribed>, subscribes: nat, topics: set<string>)
    ensures r == Err(e)
    ensures subscribes == 1
    ensures topics == {}
  {
    var svc := new MqttService(TestOptions);
    SubscribeCountAppend([], Call(0, ConnectOp(TestOptions)));
    r := svc.SubscribeTo(topic, Some(SubscribeOptions(Some(1))), Err(e));
    SubscribeCountAppend([Call(0, ConnectOp(TestOptions))], Call(0, SubscribeOp(topic, Some(SubscribeOptions(Some(1))))));
    subscribes := SubscribeCount(svc.calls);
    topics := svc.store.Keys;
  }

  /**
   * Subscribing twice to one topic asks the broker once. The second caller
   * gets the stored grant even though it asks for another qos, and the
   * first caller's observer is completed.
   */
  method SubscribeTwice(topic: string, q1: int, q2: int, secondReply: Result<seq<SubscriptionGrant>>)
    returns (first: Result<Subscribed>, second: Result<Subscribed>, subscribes: nat, firstCompleted: bool)
    ensures first == Ok(Subscribed(SubscriptionGrant(topic, Some(q1)), 0))
    ensures second == Ok(Subscribed(SubscriptionGrant(topic, Some(q1)), 1))
    ensures subscribes == 1
    ensures firstCompleted
  {
    var svc := new MqttService(TestOptions);
    var ask1 := Some(SubscribeOptions(Some(q1)));
    first := svc.SubscribeTo(topic, ask1, Ok([SubscriptionGrant(topic, Some(q1))]));
    second := svc.SubscribeTo(topic, Some(SubscribeOptions(Some(q2))), secondReply);
    SubscribeCountAppend([], Call(0, ConnectOp(TestOptions)));
    SubscribeCountAppend([Call(0, ConnectOp(TestOptions))], Call(0, SubscribeOp(topic, ask1)));
    subscribes := SubscribeCount(svc.calls);
    firstCompleted := svc.store[topic].stream.observers[0].completed;
  }

  /**
   * An empty acknowledgement without options yields the grant with qos 0;
   * with options it carries the requested qos.
   */
  method SubscribeWithEmptyGrant(topic: string, q: Qos)
    returns (withoutOptions: Result<Subscribed>, withOptions: Result<Subscribed>)
    ensures withoutOptions == Ok(Subscribed(SubscriptionGrant(topic, Some(0)), 0))
    ensures withOptions == Ok(Subscribed(SubscriptionGrant(topic, q), 0))
  {
    var svc := new MqttService(TestOptions);
    withoutOptions := svc.SubscribeTo(topic, None, Ok([]));
    var other := new MqttService(TestOptions);
    withOptions := other.SubscribeTo(topic, Some(SubscribeOptions(q)), Ok([]));
  }

  /** The JSON text `{"bar":"foo"}` decodes to. */
  const BarFoo := JObject([("bar", JString("foo"))])

  /**
   * Subscribe to "fooBar" with qos 1, receive `{"bar":"foo"}` on it, then
   * end by force: the subscriber gets the grant, then the decoded object;
   * the last two client calls unsubscribe "fooBar" and then end the client.
   */
  method FooBarRoundTrip(payload: seq<bv8>, lib: JsLibrary)
    returns (grant: SubscriptionGrant, seen: seq<Message>, lastCalls: seq<Call>, topics: set<string>)
    requires lib.parse(lib.bufferToString(payload)) == Some(BarFoo)
    ensures grant == SubscriptionGrant("fooBar", Some(1))
    ensures seen == [ParsedMessage(BarFoo)]
    ensures lastCalls == [Call(0, UnsubscribeOp(TopicList(["fooBar"]))), Call(0, EndOp(Some(true), None))]
    ensures topics == {}
  {
    var svc := new MqttService(TestOptions);
    var r := svc.SubscribeTo("fooBar", Some(SubscribeOptions(Some(1))), Ok([SubscriptionGrant("fooBar", Some(1))]));
    grant := r.value.grant;
    var delivered := svc.OnMessage("fooBar", payload, lib);
    seen := svc.store["fooBar"].stream.observers[r.value.observer].seen;
    var before := |svc.calls|;
    var stored := svc.store.Keys;
    assert stored == {"fooBar"};
    svc.End(Some(true), None);
    lastCalls := svc.calls[before..];
    var ts := lastCalls[0].op.arg.topics;
    assert |ts| == 1 by {
      if |ts| > 1 { assert ts[0] == "fooBar" == ts[1] by { assert ts[0] in Elements(ts) && ts[1] in Elements(ts); } }
    }
    assert ts[0] in Elements(ts);
    assert ts == ["fooBar"];
    topics := svc.store.Keys;
  }

  /** After unsubscribing, a message for the topic is not delivered: there is no entry to take it. */
  method MessageAfterUnsubscribe(topic: string, text: seq<bv8>, lib: JsLibrary)
    returns (unsubscribed: Completion, delivered: Completion, topics: set<string>)
    ensures unsubscribed == Completed
    ensures delivered == Failed(MissingEntryError)
    ensures topic !in topics
  {
    var svc := new MqttService(TestOptions);
    var r := svc.SubscribeTo(topic, None, Ok([]));
    unsubscribed := svc.UnsubscribeFrom(SingleTopic(topic), None);
    delivered := svc.OnMessage(topic, text, lib);
    topics := svc.store.Keys;
  }

  /**
   * `unsubscribeFrom(['fooBar', 'fooBar1'])` passes the whole array to one
   * client call and reports the broker's error.
   */
  method UnsubscribeList(e: Error) returns (r: Completion, last: Call)
    ensures r == Failed(e)
    ensures last == Call(0, UnsubscribeOp(TopicList(["fooBar", "fooBar1"])))
  {
    var svc := new MqttService(TestOptions);
    r := svc.UnsubscribeFrom(TopicList(["fooBar", "fooBar1"]), Some(e));
    last := svc.calls[|svc.calls| - 1];
  }

  /**
   * `publishTo` forwards the topic, the encoded payload and the absent
   * options: a string as itself, a Buffer untouched.
   */
  method PublishStringAndBuffer(bytes: seq<bv8>, lib: JsLibrary) returns (log: seq<Call>)
    ensures log == [Call(0, ConnectOp(TestOptions)),
      Call(0, PublishOp("fooBar", Some(TextPayload("barFoo")), None)),
      Call(0, PublishOp("fooBar", Some(BufferPayload(bytes)), None))]
  {
    var svc := new MqttService(TestOptions);
    var r1 := svc.PublishTo("fooBar", StringValue("barFoo"), None, lib, None);
    var r2 := svc.PublishTo("fooBar", BufferValue(bytes), None, lib, None);
    log := svc.calls;
  }

  /**
   * `status()` emits CONNECTED, then DISCONNECTED once however many
   * `offline` events follow, then CONNECTED once on reconnection.
   */
  method StatusEmissions() returns (afterOffline: seq<ConnectionStatus>, afterReconnect: seq<ConnectionStatus>)
    ensures afterOffline == [Connected, Disconnected]
    ensures afterReconnect == [Connected, Disconnected, Connected]
  {
    var svc := new MqttService(TestOptions);
    svc.OnOffline();
    svc.OnOffline();
    afterOffline := svc.Status();
    svc.OnConnect();
    svc.OnConnect();
    afterReconnect := svc.Status();
  }

  /**
   * A subscriber that calls `status()` after an `offline` event is first
   * given DISCONNECTED, the BehaviorSubject's current value, and then
   * CONNECTED once on reconnection.
   */
  method LateStatusSubscriber() returns (onJoin: seq<ConnectionStatus>, afterReconnect: seq<ConnectionStatus>)
    ensures onJoin == [Disconnected]
    ensures afterReconnect == [Disconnected, Connected]
  {
    var svc := new MqttService(TestOptions);
    svc.OnOffline();
    var joinedAt := |svc.statusEvents|;
    onJoin := svc.StatusSince(joinedAt);
    svc.OnConnect();
    svc.OnConnect();
    afterReconnect := svc.StatusSince(joinedAt);
  }

  /**
   * An object published on a subscribed topic, delivered back by the broker
   * as the bytes MQTT.js sent, reaches the subscriber as that object.
   */
  method PublishedObjectReachesSubscriber(topic: string, json: Json, lib: JsLibrary)
    returns (sent: MqttTypes.Payload, seen: seq<Message>)
    requires TextRoundTrips(lib, lib.stringify(json)) && lib.parse(lib.stringify(json)) == Some(json)
    ensures sent == TextPayload(lib.stringify(json))
    ensures seen == [ParsedMessage(json)]
  {
    var svc := new MqttService(TestOptions);
    var r := svc.SubscribeTo(topic, None, Ok([]));
    var published := svc.PublishTo(topic, ObjectValue(json), None, lib, None);
    sent := svc.calls[|svc.calls| - 1].op.payload.value;
    PublishedValueArrivesDecoded(ObjectValue(json), lib);
    var delivered := svc.OnMessage(topic, WireBytes(sent, lib), lib);
    seen := svc.store[topic].stream.observers[r.value.observer].seen;
  }

  /** `connect` on a connected client first ends it by force, then creates the new client. */
  method ReconnectEndsConnectedClient(options: ClientOptions) returns (log: seq<Call>)
    ensures log == [Call(0, ConnectOp(TestOptions)), Call(0, EndOp(Some(true), None)), Call(1, ConnectOp(options))]
  {
    var svc := new MqttService(TestOptions);
    svc.Connect(options, true);
    log := svc.calls;
  }
}
