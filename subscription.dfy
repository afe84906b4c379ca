/**
 * The Subscription Orchestrator's decisions in `subscribeTo`
 * (mqtt.service.ts:48-87): which branch a request takes, and which grant a
 * successful broker subscribe yields.
 */
module Subscription {
  import opened MqttTypes
  import opened TopicStream

  /** The qos the workaround synthesizes: `options ? options.qos : 0`. */
  function RequestedQos(options: Option<SubscribeOptions>): Qos
  {
    if options.Some? then options.value.qos else Some(0)
  }

  /**
   * The grant a successful broker subscribe yields: the broker's first grant,
   * or one synthesized from the request when the broker acknowledged with an
   * empty list (the MQTT.js issue 529 workaround).
   */
  function GrantFromReply(topic: string, options: Option<SubscribeOptions>, granted: seq<SubscriptionGrant>): (g: SubscriptionGrant)
    ensures |granted| > 0 ==> g == granted[0]
    ensures |granted| == 0 ==> g.topic == topic
    ensures |granted| == 0 && options.None? ==> g.qos == Some(0)
    ensures |granted| == 0 && options.Some? ==> g.qos == options.value.qos
  {
    if |granted| > 0 then granted[0] else SubscriptionGrant(topic, RequestedQos(options))
  }

  /**
   * The qos the SUBSCRIBE request carries on the wire: the one given in the
   * options, and MQTT.js's default 0 when there is none.
   */
  function WireQos(options: Option<SubscribeOptions>): int
  {
    if options.Some? && options.value.qos.Some? then options.value.qos.value else 0
  }

  /**
   * Against a broker that grants exactly the qos requested on the wire, the
   * synthesized grant equals the broker's own one exactly when the request
   * did not give options without a qos; in that case the workaround reports
   * an undefined qos where the broker granted 0.
   */
  lemma WorkaroundMatchesEchoingBrokerIffQosGiven(topic: string, options: Option<SubscribeOptions>)
    ensures GrantFromReply(topic, options, []) == GrantFromReply(topic, options, [SubscriptionGrant(topic, Some(WireQos(options)))])
      <==> !(options.Some? && options.value.qos.None?)
  {
  }

  /**
   * Options given without a qos leave the synthesized qos undefined: the
   * default 0 applies only when no options are given at all.
   */
  lemma AbsentQosIsNotDefaulted(topic: string)
    ensures GrantFromReply(topic, Some(SubscribeOptions(None)), []).qos == None
    ensures GrantFromReply(topic, None, []).qos == Some(0)
  {
  }

  /** The branch a `subscribeTo` request takes. */
  datatype Step =
    | RejectNoConnection        // status gate: fail with `NoConnectionError`
    | ReplayEntry(entry: Entry) // already registered: replay grant and stream
    | AskBroker                 // issue `client.subscribe`
    | ThrowTypeError            // `stream.observers` read on something that is not an entry

  /**
   * The names every plain JavaScript object inherits from `Object.prototype`;
   * `store[name]` on the initially empty `{}` store yields a truthy value for
   * each of them.
   */
  const InheritedNames: set<string> := {
    "constructor", "hasOwnProperty", "isPrototypeOf", "propertyIsEnumerable",
    "toLocaleString", "toString", "valueOf", "__proto__",
    "__defineGetter__", "__defineSetter__", "__lookupGetter__", "__lookupSetter__"
  }

  /**
   * `subscribeTo`'s branch as written: `if (this._store[topic])` is a
   * property read, so an inherited name counts as registered, and reading
   * `.stream.observers` of it throws.
   */
  function SubscribeStepAsWritten(status: ConnectionStatus, store: map<string, Entry>, topic: string): Step
  {
    if status == Disconnected then RejectNoConnection
    else if topic in store then ReplayEntry(store[topic])
    else if topic in InheritedNames then ThrowTypeError
    else AskBroker
  }

  /**
   * Connected, with no entry for it, a request for the topic "toString" as
   * written throws instead of reaching the broker.
   */
  lemma InheritedNameNeverReachesBroker(store: map<string, Entry>)
    requires "toString" !in store
    ensures SubscribeStepAsWritten(Connected, store, "toString") == ThrowTypeError
    ensures SubscribeStep(Connected, store, "toString") == AskBroker
  {
  }

  /** `subscribeTo`'s branch when the store is read by own keys only. */
  function SubscribeStep(status: ConnectionStatus, store: map<string, Entry>, topic: string): Step
  {
    if status == Disconnected then RejectNoConnection
    else if topic in store then ReplayEntry(store[topic])
    else AskBroker
  }

  /**
   * The gate and the deduplication: a request reaches the broker exactly when
   * the service is connected and the topic is not registered; a registered
   * topic replays its own entry; nothing throws.
   */
  lemma SubscribeStepAsksBrokerIffNew(status: ConnectionStatus, store: map<string, Entry>, topic: string)
    ensures SubscribeStep(status, store, topic) == AskBroker <==> status == Connected && topic !in store
    ensures SubscribeStep(status, store, topic) == RejectNoConnection <==> status == Disconnected
    ensures SubscribeStep(status, store, topic).ReplayEntry? <==> status == Connected && topic in store
    ensures SubscribeStep(status, store, topic).ReplayEntry? ==> SubscribeStep(status, store, topic).entry == store[topic]
    ensures SubscribeStep(status, store, topic) != ThrowTypeError
  {
  }

  /** The two readings differ only on inherited names. */
  lemma AsWrittenAgreesOffInheritedNames(status: ConnectionStatus, store: map<string, Entry>, topic: string)
    requires topic !in InheritedNames
    ensures SubscribeStepAsWritten(status, store, topic) == SubscribeStep(status, store, topic)
  {
  }
}
