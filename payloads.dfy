/**
  The data the accelerator core's event bus carries, one constructor per
  shape of object the core and its communication layer pass to
  `triggerEvent`.
 */
module Payloads {
  import opened Entities
  import opened SessionState
  import opened Engine

  /** `Object.assign({}, getPubSub(), { publisher })`. */
  datatype CallData = CallData(pubSub: PubSub, publisher: Publisher)

  datatype Payload =
    /** `triggerEvent(name)` with no data. */
    | NoData
    /** An error message. */
    | Text(text: string)
    /** `Object.assign({}, { subscriber }, state.all())`. */
    | WithState(subscriber: Subscriber, state: Snapshot)
    /** A bare subscriber object. */
    | SubscriberData(subscriber: Subscriber)
    /** A bare publisher object. */
    | PublisherData(publisher: Publisher)
    /** `getPubSub()`. */
    | Counts(pubSub: PubSub)
    /** The pub/sub snapshot together with a publisher. */
    | WithPublisher(data: CallData)
    /** A session event passed on unchanged. */
    | FromSession(event: SessionEvent)
    /** The engine session object itself. */
    | SessionHandle
}
