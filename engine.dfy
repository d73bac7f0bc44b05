/**
  The boundary to the video engine. The engine itself is not modelled: every
  call the accelerator makes into it is recorded, in order, on a `Session`
  object, and every answer it gives back (a publisher, an error, a
  subscriber) is an input of the operation that waits for it.
 */
module Engine {
  import opened Js
  import opened Util
  import opened Entities
  import opened EventBus

  /** What a session event carries: its `stream`, when it has one. */
  datatype SessionEvent = SessionEvent(stream: Option<Stream>)

  /** The engine's answer to `session.subscribe`: the subscriber object it
      returned, and the error its completion callback received, if any. */
  datatype SubscribeReply = SubscribeReply(subscriber: Subscriber, error: Option<Error>)

  /** `JSON.stringify(value)`, kept symbolic. */
  datatype Stringified = Stringify(value: Json)

  /** The object handed to `session.signal`; each field present or absent. */
  datatype Signal = Signal(signalType: Option<Json>, data: Option<Stringified>, to: Option<Json>)

  /** The engine object an event listener is attached to. */
  datatype ListenTarget = OnSession | OnPublisher(publisher: Publisher) | OnSubscriber(subscriber: Subscriber)

  /** One call into the engine. */
  datatype EngineCall =
    | InitPublisher(properties: Json)
    | Publish(publisher: Publisher)
    | Unpublish(publisher: Publisher)
    | Subscribe(stream: Stream, properties: Json)
    | Unsubscribe(subscriber: Subscriber)
    | PublisherAV(publisher: Publisher, avMethod: string, enable: bool)
    | SubscriberAV(subscriber: Subscriber, avMethod: string, enable: bool)
    | SendSignal(signal: Signal)
    | Connect(token: Json)
    | Disconnect
    | Listen(target: ListenTarget, event: string, callback: Callback)
    | OffAll

  /** The calls `Object.keys(bucket).forEach(id => bucket[id][avMethod](enable))`
      makes when it visits the keys in `order`. */
  function Toggling(b: Bucket, order: seq<string>, avMethod: string, enable: bool): (r: seq<EngineCall>)
    requires forall i | 0 <= i < |order| :: order[i] in b
    ensures |r| == |order|
    ensures forall i | 0 <= i < |order| :: r[i] == PublisherAV(b[order[i]], avMethod, enable)
    decreases |order|
  {
    if order == [] then []
    else Toggling(b, order[..|order| - 1], avMethod, enable) + [PublisherAV(b[order[|order| - 1]], avMethod, enable)]
  }

  /** Visiting one more key appends one more call to the log. */
  lemma TogglingSnoc(log: seq<EngineCall>, b: Bucket, order: seq<string>, k: string, avMethod: string, enable: bool)
    requires forall i | 0 <= i < |order| :: order[i] in b
    requires k in b
    ensures log + Toggling(b, order + [k], avMethod, enable)
            == (log + Toggling(b, order, avMethod, enable)) + [PublisherAV(b[k], avMethod, enable)]
  {
    assert (order + [k])[..|order|] == order;
  }

  /** The engine session object, as far as the accelerator can tell: the
      calls it received. */
  class Session {
    var calls: seq<EngineCall>

    constructor ()
      ensures calls == []
    {
      calls := [];
    }

    /** Make one call into the engine. */
    method Record(call: EngineCall)
      modifies this
      ensures calls == old(calls) + [call]
    {
      calls := calls + [call];
    }
  }
}
