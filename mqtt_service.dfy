/**
 * `MqttService` (mqtt.service.ts): the connection handle, the status
 * subject and the topic store, updated in place by the service's
 * operations and by the client's event hooks. Every connect, subscribe,
 * unsubscribe, publish and end call into MQTT.js is appended to a log; what
 * the broker answers is a parameter.
 */
module MqttServiceModel {
  import opened MqttTypes
  import opened Payload
  import opened StatusTracker
  import opened TopicStream
  import opened Subscription

  /** What a successful `subscribeTo` hands its caller: the grant, then its place among the stream's observers. */
  datatype Subscribed = Subscribed(grant: SubscriptionGrant, observer: nat)

  predicate Distinct(ts: seq<string>)
  {
    forall i, j :: 0 <= i < j < |ts| ==> ts[i] != ts[j]
  }

  /** Moving one key from the unlisted ones to the end of the list keeps the list exact and repetition-free. */
  lemma TakeKey(rest: set<string>, ts: seq<string>, keys: set<string>, t: string)
    requires rest + Elements(ts) == keys && rest !! Elements(ts) && Distinct(ts)
    requires t in rest
    ensures (rest - {t}) + Elements(ts + [t]) == keys
    ensures (rest - {t}) !! Elements(ts + [t])
    ensures Distinct(ts + [t])
    ensures |rest - {t}| < |rest|
  {
    ElementsAppend(ts, t);
    assert forall i :: 0 <= i < |ts| ==> ts[i] in Elements(ts);
  }

  /** How many `client.subscribe` calls a log holds. */
  function SubscribeCount(calls: seq<Call>): nat
  {
    if calls == [] then 0
    else SubscribeCount(calls[..|calls| - 1]) + (if calls[|calls| - 1].op.SubscribeOp? then 1 else 0)
  }

  lemma SubscribeCountAppend(calls: seq<Call>, c: Call)
    ensures SubscribeCount(calls + [c]) == SubscribeCount(calls) + (if c.op.SubscribeOp? then 1 else 0)
  {
    assert (calls + [c])[..|calls|] == calls;
  }

  class MqttService {
    /** The current `_client`, numbered by creation. */
    var client: nat
    /** Every value pushed into the `_status` BehaviorSubject, its initial CONNECTED first. */
    var statusEvents: seq<ConnectionStatus>
    /** `_store`: topic to grant and stream. */
    var store: map<string, Entry>
    /** The connect, subscribe, unsubscribe, publish and end calls made into MQTT.js, oldest first. */
    var calls: seq<Call>

    ghost predicate Valid()
      reads this
    {
      && |statusEvents| > 0 && statusEvents[0] == Connected
      && (forall t :: t in store ==> StreamValid(store[t].stream))
    }

    /** Construction with automatic connection: status CONNECTED, empty store, one client. */
    constructor (options: ClientOptions)
      ensures Valid()
      ensures client == 0 && calls == [Call(0, ConnectOp(options))]
      ensures store == map[] && statusEvents == [Connected]
    {
      client := 0;
      calls := [Call(0, ConnectOp(options))];
      store := map[];
      statusEvents := [Connected];
    }

    /** The value the status gate reads. */
    function CurrentStatus(): ConnectionStatus
      reads this
      requires Valid()
    {
      statusEvents[|statusEvents| - 1]
    }

    /**
     * `status()`: what a subscriber that joined at construction has been
     * sent: CONNECTED first, the current status last, never the same value
     * twice in a row.
     */
    function Status(): (r: seq<ConnectionStatus>)
      reads this
      requires Valid()
      ensures |r| > 0 && r[0] == Connected && r[|r| - 1] == CurrentStatus()
      ensures NoRepeats(r)
    {
      DistinctUntilChanged(statusEvents)
    }

    /**
     * `status()` for a subscriber that joined when `joinedAt` values had been
     * pushed: the BehaviorSubject first replays the value current then, and
     * the subscriber sees every later change, never the same value twice in
     * a row, the current status last.
     */
    function StatusSince(joinedAt: nat): (r: seq<ConnectionStatus>)
      reads this
      requires Valid() && 0 < joinedAt <= |statusEvents|
      ensures |r| > 0 && r[0] == statusEvents[joinedAt - 1] && r[|r| - 1] == CurrentStatus()
      ensures |r| <= |statusEvents| - joinedAt + 1
      ensures NoRepeats(r)
    {
      DistinctUntilChanged(statusEvents[joinedAt - 1..])
    }

    /**
     * `connect`: end the old client by force only when it reports itself
     * connected, then create the new one.
     */
    method Connect(options: ClientOptions, oldClientConnected: bool)
      requires Valid()
      modifies this
      ensures Valid()
      ensures client == old(client) + 1
      ensures calls == old(calls)
        + (if oldClientConnected then [Call(old(client), EndOp(Some(true), None))] else [])
        + [Call(client, ConnectOp(options))]
      ensures store == old(store) && statusEvents == old(statusEvents)
    {
      if oldClientConnected {
        calls := calls + [Call(client, EndOp(Some(true), None))];
      }
      client := client + 1;
      calls := calls + [Call(client, ConnectOp(options))];
    }

    method PushStatus(s: ConnectionStatus)
      requires Valid()
      modifies this
      ensures Valid()
      ensures statusEvents == old(statusEvents) + [s]
      ensures Status() == old(Status()) + (if old(CurrentStatus()) == s then [] else [s])
      ensures client == old(client) && store == old(store) && calls == old(calls)
    {
      DistinctUntilChangedAppend(statusEvents, s);
      statusEvents := statusEvents + [s];
    }

    /** The client's `offline` hook. */
    method OnOffline()
      requires Valid()
      modifies this
      ensures Valid()
      ensures statusEvents == old(statusEvents) + [Disconnected] && CurrentStatus() == Disconnected
      ensures Status() == old(Status()) + (if old(CurrentStatus()) == Disconnected then [] else [Disconnected])
      ensures client == old(client) && store == old(store) && calls == old(calls)
    {
      PushStatus(Disconnected);
    }

    /** The client's `connect` hook. */
    method OnConnect()
      requires Valid()
      modifies this
      ensures Valid()
      ensures statusEvents == old(statusEvents) + [Connected] && CurrentStatus() == Connected
      ensures Status() == old(Status()) + (if old(CurrentStatus()) == Connected then [] else [Connected])
      ensures client == old(client) && store == old(store) && calls == old(calls)
    {
      PushStatus(Connected);
    }

    /**
     * `updateTopic`: decode leniently and push onto the topic's stream. A
     * topic missing from the store makes the `.stream` read fail.
     */
    method UpdateTopic(topic: string, raw: string, lib: JsLibrary) returns (r: Completion)
      requires Valid()
      modifies this
      ensures Valid()
      ensures topic !in old(store) ==> r == Failed(MissingEntryError) && store == old(store)
      ensures topic in old(store) ==> r == Completed && store == old(store)[topic :=
        old(store)[topic].(stream := Emit(old(store)[topic].stream, DecodeMessage(raw, lib)))]
      ensures client == old(client) && statusEvents == old(statusEvents) && calls == old(calls)
    {
      if topic !in store {
        return Failed(MissingEntryError);
      }
      var entry := store[topic];
      store := store[topic := entry.(stream := Emit(entry.stream, DecodeMessage(raw, lib)))];
      r := Completed;
    }

    /** The client's `message` hook: the payload's text goes to `updateTopic`. */
    method OnMessage(topic: string, payload: seq<bv8>, lib: JsLibrary) returns (r: Completion)
      requires Valid()
      modifies this
      ensures Valid()
      ensures topic !in old(store) ==> r == Failed(MissingEntryError) && store == old(store)
      ensures topic in old(store) ==> r == Completed && store == old(store)[topic :=
        old(store)[topic].(stream := Emit(old(store)[topic].stream, DecodeMessage(lib.bufferToString(payload), lib)))]
      ensures client == old(client) && statusEvents == old(statusEvents) && calls == old(calls)
    {
      r := UpdateTopic(topic, lib.bufferToString(payload), lib);
    }

    /** `addTopic`: register a fresh stream under the grant and attach the caller to it. */
    method AddTopic(topic: string, grant: SubscriptionGrant) returns (observer: nat)
      requires Valid()
      modifies this
      ensures Valid()
      ensures store == old(store)[topic := Entry(grant, Join(EmptyStream()))]
      ensures observer == 0 && store[topic].stream.observers[observer] == Observer(0, [], false)
      ensures client == old(client) && statusEvents == old(statusEvents) && calls == old(calls)
    {
      store := store[topic := Entry(grant, Join(EmptyStream()))];
      observer := 0;
    }

    /**
     * `subscribeTo`, as one synchronous step: the status gate, then the
     * deduplication against the store, then one broker subscribe whose
     * answer is `reply`, then registration.
     */
    method SubscribeTo(topic: string, options: Option<SubscribeOptions>, reply: Result<seq<SubscriptionGrant>>)
      returns (r: Result<Subscribed>)
      requires Valid()
      modifies this
      ensures Valid()
      ensures client == old(client) && statusEvents == old(statusEvents)
      // disconnected: fail, touch nothing
      ensures old(CurrentStatus()) == Disconnected ==>
        r == Err(NoConnectionError) && store == old(store) && calls == old(calls)
      // already registered: no broker call, stored grant, old observers completed
      ensures old(CurrentStatus()) == Connected && topic in old(store) ==>
        && calls == old(calls)
        && r == Ok(Subscribed(old(store)[topic].grant, |old(store)[topic].stream.observers|))
        && store == old(store)[topic := Entry(old(store)[topic].grant, Join(CompleteAll(old(store)[topic].stream)))]
      // new topic: exactly one broker subscribe with the caller's arguments
      ensures old(CurrentStatus()) == Connected && topic !in old(store) ==>
        calls == old(calls) + [Call(client, SubscribeOp(topic, options))]
      ensures old(CurrentStatus()) == Connected && topic !in old(store) && reply.Err? ==>
        r == Err(reply.error) && store == old(store)
      ensures old(CurrentStatus()) == Connected && topic !in old(store) && reply.Ok? ==>
        && r == Ok(Subscribed(GrantFromReply(topic, options, reply.value), 0))
        && store == old(store)[topic := Entry(GrantFromReply(topic, options, reply.value), Join(EmptyStream()))]
    {
      SubscribeStepAsksBrokerIffNew(CurrentStatus(), store, topic);
      match SubscribeStep(CurrentStatus(), store, topic)
      case RejectNoConnection =>
        r := Err(NoConnectionError);
      case ReplayEntry(entry) =>
        var completed := CompleteAll(entry.stream);
        store := store[topic := Entry(entry.grant, Join(completed))];
        r := Ok(Subscribed(entry.grant, |completed.observers|));
      case AskBroker =>
        calls := calls + [Call(client, SubscribeOp(topic, options))];
        match reply {
          case Err(e) =>
            r := Err(e);
          case Ok(granted) =>
            var grant := GrantFromReply(topic, options, granted);
            var observer := AddTopic(topic, grant);
            r := Ok(Subscribed(grant, observer));
        }
      case ThrowTypeError =>
        assert false;
    }

    /** `removeTopic`: drop the entry, if there is one; its stream goes with it. */
    method RemoveTopic(topic: string)
      requires Valid()
      modifies this
      ensures Valid()
      ensures store == old(store) - {topic}
      ensures client == old(client) && statusEvents == old(statusEvents) && calls == old(calls)
    {
      if topic in store {
        store := store - {topic};
      }
    }

    /**
     * `unsubscribeFrom`: every named topic leaves the store first, then one
     * broker unsubscribe receives the argument as given; its error, if any,
     * is the result.
     */
    method UnsubscribeFrom(arg: TopicArg, reply: Option<Error>) returns (r: Completion)
      requires Valid()
      modifies this
      ensures Valid()
      ensures store == old(store) - Topics(arg)
      ensures calls == old(calls) + [Call(client, UnsubscribeOp(arg))]
      ensures r == if reply.Some? then Failed(reply.value) else Completed
      ensures client == old(client) && statusEvents == old(statusEvents)
    {
      match arg {
        case SingleTopic(t) =>
          RemoveTopic(t);
        case TopicList(ts) =>
          var i := 0;
          while i < |ts|
            invariant 0 <= i <= |ts|
            invariant Valid()
            invariant store == old(store) - Elements(ts[..i])
            invariant client == old(client) && statusEvents == old(statusEvents) && calls == old(calls)
          {
            RemoveTopic(ts[i]);
            assert ts[..i + 1] == ts[..i] + [ts[i]];
            ElementsAppend(ts[..i], ts[i]);
            i := i + 1;
          }
          assert ts[..|ts|] == ts;
          assert Elements(ts) == Topics(arg);
      }
      calls := calls + [Call(client, UnsubscribeOp(arg))];
      r := if reply.Some? then Failed(reply.value) else Completed;
    }

    /**
     * `publishTo`: one broker publish with the topic, the encoded payload
     * and the options as given; the broker's error, if any, is the result.
     */
    method PublishTo(topic: string, message: JsValue, options: Option<PublishOptions>, lib: JsLibrary, reply: Option<Error>)
      returns (r: Completion)
      requires Valid()
      modifies this
      ensures Valid()
      ensures calls == old(calls) + [Call(client, PublishOp(topic, EncodePayload(message, lib), options))]
      ensures r == if reply.Some? then Failed(reply.value) else Completed
      ensures client == old(client) && store == old(store) && statusEvents == old(statusEvents)
    {
      calls := calls + [Call(client, PublishOp(topic, EncodePayload(message, lib), options))];
      r := if reply.Some? then Failed(reply.value) else Completed;
    }

    /** `Object.keys(this._store)`: every registered topic once, in some order. */
    method StoreKeys() returns (ts: seq<string>)
      ensures Elements(ts) == store.Keys
      ensures Distinct(ts)
    {
      ts := [];
      var rest := store.Keys;
      while rest != {}
        invariant rest + Elements(ts) == store.Keys
        invariant rest !! Elements(ts)
        invariant Distinct(ts)
        decreases |rest|
      {
        var t :| t in rest;
        TakeKey(rest, ts, store.Keys, t);
        ts := ts + [t];
        rest := rest - {t};
      }
    }

    /**
     * `end`: one batched unsubscribe of every registered topic, leaving the
     * store empty, and only then `client.end(force, cb)`.
     */
    method End(force: Option<bool>, cb: Option<Callback>)
      requires Valid()
      modifies this
      ensures Valid()
      ensures store == map[]
      ensures |calls| == |old(calls)| + 2 && calls[..|old(calls)|] == old(calls)
      ensures calls[|old(calls)|].client == client && calls[|old(calls)|].op.UnsubscribeOp?
      ensures calls[|old(calls)|].op.arg.TopicList?
      ensures Elements(calls[|old(calls)|].op.arg.topics) == old(store).Keys
      ensures Distinct(calls[|old(calls)|].op.arg.topics)
      ensures calls[|old(calls)| + 1] == Call(client, EndOp(force, cb))
      ensures client == old(client) && statusEvents == old(statusEvents)
    {
      var topics := StoreKeys();
      var _ := UnsubscribeFrom(TopicList(topics), None);
      assert store == map[];
      calls := calls + [Call(client, EndOp(force, cb))];
    }
  }
}
