/**
 * A topic's stream, the RxJS `Subject` held in each topic-store entry
 * (models/topic-store.ts), as values: what has been pushed into it and what
 * each observer that joined it has seen.
 */
module TopicStream {
  import opened MqttTypes

  /**
   * One caller attached to a stream: the number of messages the stream had
   * carried when it joined, the messages it has seen since, and whether it
   * has been completed.
   */
  datatype Observer = Observer(joinedAt: nat, seen: seq<Message>, completed: bool)

  /** A `Subject`: every value passed to `next`, and its observers in joining order. */
  datatype Stream = Stream(delivered: seq<Message>, observers: seq<Observer>)

  /** `TopicStore`: a topic's grant and its stream. */
  datatype Entry = Entry(grant: SubscriptionGrant, stream: Stream)

  /**
   * An observer has seen a contiguous run of the stream, starting where it
   * joined; one still open has seen everything since.
   */
  ghost predicate ObserverValid(delivered: seq<Message>, o: Observer)
  {
    && o.joinedAt + |o.seen| <= |delivered|
    && o.seen == delivered[o.joinedAt..o.joinedAt + |o.seen|]
    && (!o.completed ==> o.joinedAt + |o.seen| == |delivered|)
  }

  ghost predicate StreamValid(s: Stream)
  {
    forall i :: 0 <= i < |s.observers| ==> ObserverValid(s.delivered, s.observers[i])
  }

  /** `new Subject()`. */
  function EmptyStream(): (s: Stream)
    ensures StreamValid(s) && s.delivered == [] && s.observers == []
  {
    Stream([], [])
  }

  /** A new caller subscribes: it has seen nothing yet. */
  function Join(s: Stream): (r: Stream)
    ensures r.delivered == s.delivered
    ensures |r.observers| == |s.observers| + 1 && r.observers[..|s.observers|] == s.observers
    ensures r.observers[|s.observers|] == Observer(|s.delivered|, [], false)
    ensures StreamValid(s) ==> StreamValid(r)
  {
    Stream(s.delivered, s.observers + [Observer(|s.delivered|, [], false)])
  }

  /** `observers.forEach(obs => obs.complete())`. */
  function CompleteAll(s: Stream): (r: Stream)
    ensures r.delivered == s.delivered && |r.observers| == |s.observers|
    ensures forall i :: 0 <= i < |r.observers| ==>
      r.observers[i].completed && r.observers[i].seen == s.observers[i].seen
    ensures StreamValid(s) ==> StreamValid(r)
  {
    Stream(s.delivered, seq(|s.observers|, i requires 0 <= i < |s.observers| => s.observers[i].(completed := true)))
  }

  /** What `next(m)` does to one observer. */
  function Deliver(o: Observer, m: Message): Observer
  {
    if o.completed then o else o.(seen := o.seen + [m])
  }

  /** `next(m)`: the value is carried to every observer still open. */
  function Emit(s: Stream, m: Message): (r: Stream)
    ensures r.delivered == s.delivered + [m] && |r.observers| == |s.observers|
    ensures forall i :: 0 <= i < |s.observers| ==>
      r.observers[i].completed == s.observers[i].completed && r.observers[i].joinedAt == s.observers[i].joinedAt
    ensures forall i :: 0 <= i < |s.observers| && !s.observers[i].completed ==>
      r.observers[i].seen == s.observers[i].seen + [m]
    ensures forall i :: 0 <= i < |s.observers| && s.observers[i].completed ==>
      r.observers[i] == s.observers[i]
    ensures StreamValid(s) ==> StreamValid(r)
  {
    var r := Stream(s.delivered + [m], seq(|s.observers|, i requires 0 <= i < |s.observers| => Deliver(s.observers[i], m)));
    assert StreamValid(s) ==> StreamValid(r) by {
      if StreamValid(s) {
        forall i | 0 <= i < |r.observers| ensures ObserverValid(r.delivered, r.observers[i]) {
          assert ObserverValid(s.delivered, s.observers[i]);
        }
      }
    }
    r
  }

  /** `next` applied to each message in turn. */
  function EmitAll(s: Stream, ms: seq<Message>): Stream
    decreases |ms|
  {
    if ms == [] then s else EmitAll(Emit(s, ms[0]), ms[1..])
  }

  /**
   * Messages reach an open observer in the order they were pushed, none
   * lost and none repeated; a completed observer sees nothing more.
   */
  lemma {:induction false} EmitAllInOrder(s: Stream, ms: seq<Message>, i: nat)
    requires i < |s.observers|
    ensures EmitAll(s, ms).delivered == s.delivered + ms
    ensures |EmitAll(s, ms).observers| == |s.observers|
    ensures !s.observers[i].completed ==> EmitAll(s, ms).observers[i].seen == s.observers[i].seen + ms
    ensures s.observers[i].completed ==> EmitAll(s, ms).observers[i] == s.observers[i]
    decreases |ms|
  {
    if ms != [] {
      var s' := Emit(s, ms[0]);
      EmitAllInOrder(s', ms[1..], i);
      assert ms == [ms[0]] + ms[1..];
    }
  }

  /** An observer that is still open has seen exactly the stream's tail since it joined. */
  lemma OpenObserverSeesTail(s: Stream, i: nat)
    requires StreamValid(s) && i < |s.observers| && !s.observers[i].completed
    ensures s.observers[i].seen == s.delivered[s.observers[i].joinedAt..]
  {
    assert ObserverValid(s.delivered, s.observers[i]);
  }
}
