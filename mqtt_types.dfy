/**
 * The values that flow through the MQTT service: connection status,
 * subscription grants, options, payloads, inbound messages and the calls
 * the service makes on the MQTT.js client.
 */
module MqttTypes {

  datatype Option<+T> = None | Some(value: T)

  /** Outcome of a broker round trip the caller waits on (a promise). */
  datatype Completion = Completed | Failed(error: Error)

  datatype Result<+T> = Ok(value: T) | Err(error: Error)

  /** A JavaScript `Error`, identified by its message. */
  datatype Error = Error(message: string)

  /** The error `subscribeTo` reports while the service believes it is offline. */
  const NoConnectionError := Error("No connection with MQTT.")

  /** The TypeError JavaScript raises when `updateTopic` reads `.stream` of a missing entry. */
  const MissingEntryError := Error("Cannot read property 'stream' of undefined")

  datatype ConnectionStatus = Connected | Disconnected

  /** A qos as the service handles it: a number, or `undefined` (None). */
  type Qos = Option<int>

  /** `SubscriptionGrant`: the broker's acknowledgement of one topic. */
  datatype SubscriptionGrant = SubscriptionGrant(topic: string, qos: Qos)

  /** `IClientSubscribeOptions`; only `qos` is read by the service. */
  datatype SubscribeOptions = SubscribeOptions(qos: Qos)

  /** `IClientPublishOptions`, forwarded to the client untouched. */
  datatype PublishOptions = PublishOptions(qos: Qos, retain: Option<bool>, dup: Option<bool>)

  /** `IClientOptions` handed to `mqtt.connect`, as option name to option text. */
  datatype ClientOptions = ClientOptions(settings: map<string, string>)

  /** A callback passed through to `client.end`, identified by the caller. */
  datatype Callback = Callback(id: nat)

  /** The argument of `unsubscribeFrom`: `string | Array<string>`. */
  datatype TopicArg = SingleTopic(topic: string) | TopicList(topics: seq<string>)

  /** The topics a list names, as a set. */
  function Elements(ts: seq<string>): set<string>
  {
    set t | t in ts
  }

  lemma ElementsAppend(ts: seq<string>, t: string)
    ensures Elements(ts + [t]) == Elements(ts) + {t}
  {
    assert forall u :: u in ts + [t] <==> u in ts || u == t;
  }

  /** The set of topics an `unsubscribeFrom` argument names. */
  function Topics(arg: TopicArg): (ts: set<string>)
    ensures arg.SingleTopic? ==> ts == {arg.topic}
    ensures arg.TopicList? ==> forall i :: 0 <= i < |arg.topics| ==> arg.topics[i] in ts
    ensures arg.TopicList? ==> forall t :: t in ts ==> t in arg.topics
  {
    match arg
    case SingleTopic(t) => {t}
    case TopicList(list) => Elements(list)
  }

  /** JSON data, as `JSON.parse` produces it and `JSON.stringify` consumes it. */
  datatype Json =
    | JNull
    | JBool(b: bool)
    | JNumber(bits: bv64)
    | JString(s: string)
    | JArray(items: seq<Json>)
    | JObject(members: seq<(string, Json)>)

  /** A value delivered on a topic stream: decoded JSON, or the raw text. */
  datatype Message = ParsedMessage(value: Json) | RawMessage(text: string)

  /**
   * The JavaScript value handed to `publishTo`, by the kind `typeof` and
   * `instanceof Buffer` tell apart. Numbers are IEEE-754 bit patterns;
   * `ObjectValue` covers every other `typeof 'object'` value (null, arrays,
   * plain objects), given as JSON data.
   */
  datatype JsValue =
    | BufferValue(bytes: seq<bv8>)
    | StringValue(s: string)
    | NumberValue(x: bv64)
    | BooleanValue(b: bool)
    | ObjectValue(json: Json)
    | UndefinedValue
    | FunctionValue
    | SymbolValue
    | BigIntValue(i: int)

  /** What `client.publish` receives as payload: a Buffer or a string. */
  datatype Payload = BufferPayload(bytes: seq<bv8>) | TextPayload(text: string)

  /**
   * The JavaScript library routines the service calls but does not define:
   * `JSON.stringify`, `JSON.parse` (None when it throws),
   * `Number.prototype.toString`, `Buffer.prototype.toString`, and
   * `Buffer.from`, by which MQTT.js puts a string payload on the wire.
   */
  datatype JsLibrary = JsLibrary(
    stringify: Json -> string,
    parse: string -> Option<Json>,
    numberToString: bv64 -> string,
    bufferToString: seq<bv8> -> string,
    textToBuffer: string -> seq<bv8>)

  /** One call the service makes into MQTT.js. */
  datatype ClientOp =
    | ConnectOp(options: ClientOptions)
    | SubscribeOp(topic: string, subscribeOptions: Option<SubscribeOptions>)
    | UnsubscribeOp(arg: TopicArg)
    | PublishOp(topic: string, payload: Option<Payload>, publishOptions: Option<PublishOptions>)
    | EndOp(force: Option<bool>, callback: Option<Callback>)

  /** A call together with the client handle (numbered by creation) it was made on. */
  datatype Call = Call(client: nat, op: ClientOp)
}
