/**
 * The Publisher's payload encoding and the Message Router's decoding of
 * inbound text (mqtt.service.ts, `publishTo` and `updateTopic`).
 */
module Payload {
  import opened MqttTypes

  /** JavaScript's `typeof`, for the kinds of value `publishTo` can be given. */
  function TypeOf(v: JsValue): string
  {
    match v
    case BufferValue(_) => "object"
    case StringValue(_) => "string"
    case NumberValue(_) => "number"
    case BooleanValue(_) => "boolean"
    case ObjectValue(_) => "object"
    case UndefinedValue => "undefined"
    case FunctionValue => "function"
    case SymbolValue => "symbol"
    case BigIntValue(_) => "bigint"
  }

  /** `toString()` of a string, number or boolean. */
  function PrimitiveToString(v: JsValue, lib: JsLibrary): string
    requires v.StringValue? || v.NumberValue? || v.BooleanValue?
  {
    match v
    case StringValue(s) => s
    case NumberValue(x) => lib.numberToString(x)
    case BooleanValue(b) => if b then "true" else "false"
  }

  /**
   * The payload `publishTo` hands to `client.publish`: a Buffer unchanged,
   * otherwise chosen by `typeof`; None is the payload left unset because no
   * case of the switch matched.
   */
  function EncodePayload(v: JsValue, lib: JsLibrary): (p: Option<Payload>)
    ensures v.BufferValue? ==> p == Some(BufferPayload(v.bytes))
    ensures v.StringValue? ==> p == Some(TextPayload(v.s))
    ensures v.NumberValue? ==> p == Some(TextPayload(lib.numberToString(v.x)))
    ensures v.BooleanValue? ==> p == Some(TextPayload(if v.b then "true" else "false"))
    ensures v.ObjectValue? ==> p == Some(TextPayload(lib.stringify(v.json)))
    ensures p.None? <==> (v.UndefinedValue? || v.FunctionValue? || v.SymbolValue? || v.BigIntValue?)
    ensures p.Some? && p.value.BufferPayload? <==> v.BufferValue?
  {
    if !v.BufferValue? then
      var kind := TypeOf(v);
      if kind == "string" || kind == "number" || kind == "boolean" then
        Some(TextPayload(PrimitiveToString(v, lib)))
      else if kind == "object" then
        Some(TextPayload(lib.stringify(v.json)))
      else
        None
    else
      Some(BufferPayload(v.bytes))
  }

  /**
   * The decoded value `updateTopic` delivers: the result of `JSON.parse` when
   * it succeeds, the raw text when it throws.
   */
  function DecodeMessage(raw: string, lib: JsLibrary): (m: Message)
    ensures m.RawMessage? <==> lib.parse(raw).None?
    ensures m.RawMessage? ==> m.text == raw
    ensures m.ParsedMessage? ==> lib.parse(raw) == Some(m.value)
  {
    match lib.parse(raw)
    case Some(value) => ParsedMessage(value)
    case None => RawMessage(raw)
  }

  /**
   * The bytes a subscriber's `message` hook receives for a payload the broker
   * delivers unchanged: a Buffer as it is, a string as MQTT.js encodes it.
   */
  function WireBytes(p: Payload, lib: JsLibrary): seq<bv8>
  {
    match p
    case TextPayload(s) => lib.textToBuffer(s)
    case BufferPayload(bytes) => bytes
  }

  /** The text comes back from its wire encoding unchanged, as UTF-8 text does. */
  predicate TextRoundTrips(lib: JsLibrary, s: string)
  {
    lib.bufferToString(lib.textToBuffer(s)) == s
  }

  /**
   * Publishing and receiving are inverse up to the JavaScript library: what
   * `publishTo` sends, once its bytes reach the `message` hook and are decoded
   * as `updateTopic` does, is the published value. An object whose JSON text
   * parses back to it arrives as that object; a string arrives as itself
   * unless it is JSON text; a boolean arrives as the JSON boolean when
   * `JSON.parse` reads "true"/"false" as such.
   */
  lemma PublishedValueArrivesDecoded(v: JsValue, lib: JsLibrary)
    requires EncodePayload(v, lib).Some?
    ensures v.ObjectValue? && TextRoundTrips(lib, lib.stringify(v.json)) && lib.parse(lib.stringify(v.json)) == Some(v.json) ==>
      DecodeMessage(lib.bufferToString(WireBytes(EncodePayload(v, lib).value, lib)), lib) == ParsedMessage(v.json)
    ensures v.StringValue? && TextRoundTrips(lib, v.s) && lib.parse(v.s).None? ==>
      DecodeMessage(lib.bufferToString(WireBytes(EncodePayload(v, lib).value, lib)), lib) == RawMessage(v.s)
    ensures (v.BooleanValue? && TextRoundTrips(lib, if v.b then "true" else "false")
      && lib.parse(if v.b then "true" else "false") == Some(JBool(v.b))) ==>
      DecodeMessage(lib.bufferToString(WireBytes(EncodePayload(v, lib).value, lib)), lib) == ParsedMessage(JBool(v.b))
  {
  }
}
