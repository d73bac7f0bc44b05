/**
  The SDK wrapper's per-instance state object: the same records as the
  core's state module, with no 'sip' bucket, no default type, and a
  publisher removal that leaves the stream map alone.
 */
module WrapperState {
  import opened Js
  import opened Entities

  /** The bucket names both sides start with. */
  const BucketTypes: seq<string> := ["camera", "screen"]

  /** The `meta` object `pubSubCount` builds: one count per bucket and a total. */
  datatype Counts = Counts(camera: nat, screen: nat, total: nat)
  datatype Meta = Meta(publisher: Counts, subscriber: Counts)

  /** What `getPubSub` returns. */
  datatype PubSub = PubSub(publishers: Buckets, subscribers: Buckets, meta: Meta)

  /** What `all` returns. */
  datatype Snapshot = Snapshot(pubSub: PubSub, streams: map<string, Stream>, streamMap: StreamMap)

  /** The counts describe the given buckets. */
  predicate CountsMatch(c: Counts, bs: Buckets)
  {
    && "camera" in bs && "screen" in bs
    && c.camera == |bs["camera"]| && c.screen == |bs["screen"]|
    && c.total == c.camera + c.screen
  }

  /** The bucket a subscriber object names through `stream.videoType`; a
      missing stream throws. */
  function SubscriberBucket(h: Handle): Result<string>
  {
    if h.stream.None? then Err(TypeError) else Ok(PropKey(h.stream.value.videoType))
  }

  /** A subscriber sits in the bucket its own stream's type names. */
  predicate BucketFiled(b: Bucket, t: string)
  {
    forall k | k in b :: SubscriberBucket(b[k]) == Ok(t)
  }

  class State {
    var publishers: Buckets
    var subscribers: Buckets
    var streams: map<string, Stream>
    var streamMap: StreamMap

    predicate Valid()
      reads this
    {
      && publishers.Keys == {"camera", "screen"}
      && subscribers.Keys == {"camera", "screen"}
      && forall t | t in subscribers :: BucketFiled(subscribers[t], t)
    }

    /** `new State()`: empty buckets and maps. */
    constructor ()
      ensures Valid()
      ensures publishers == map["camera" := map[], "screen" := map[]]
      ensures subscribers == map["camera" := map[], "screen" := map[]]
      ensures streams == map[] && streamMap == map[]
    {
      publishers := map["camera" := map[], "screen" := map[]];
      subscribers := map["camera" := map[], "screen" := map[]];
      streams := map[];
      streamMap := map[];
    }

    /** `pubSubCount`: each total is camera + screen. */
    function PubSubCount(): (m: Meta)
      reads this
      requires Valid()
      ensures CountsMatch(m.publisher, publishers) && CountsMatch(m.subscriber, subscribers)
    {
      TotalOfTwo(publishers, "camera", "screen");
      TotalOfTwo(subscribers, "camera", "screen");
      Meta(Counts(|publishers["camera"]|, |publishers["screen"]|, Total(publishers, BucketTypes)),
           Counts(|subscribers["camera"]|, |subscribers["screen"]|, Total(subscribers, BucketTypes)))
    }

    /** `getPubSub`. */
    function GetPubSub(): (p: PubSub)
      reads this
      requires Valid()
      ensures p.publishers == publishers && p.subscribers == subscribers
      ensures CountsMatch(p.meta.publisher, p.publishers) && CountsMatch(p.meta.subscriber, p.subscribers)
    {
      PubSub(publishers, subscribers, PubSubCount())
    }

    /** `all`: the pub/sub snapshot together with the streams and the stream map. */
    function All(): (s: Snapshot)
      reads this
      requires Valid()
      ensures s.streams == streams && s.streamMap == streamMap
      ensures s.pubSub.publishers == publishers && s.pubSub.subscribers == subscribers
      ensures CountsMatch(s.pubSub.meta.publisher, publishers) && CountsMatch(s.pubSub.meta.subscriber, subscribers)
    {
      Snapshot(GetPubSub(), streams, streamMap)
    }

    function GetStreams(): map<string, Stream>
      reads this
    {
      streams
    }

    /** `addPublisher`: index the stream, then file the publisher. A type with
        no bucket throws after the stream map was changed. */
    method AddPublisher(kind: string, publisher: Publisher) returns (r: Outcome)
      requires Valid()
      modifies this
      ensures Valid()
      ensures streamMap == old(streamMap)[PropKey(publisher.streamId) := publisher.id]
      ensures streams == old(streams) && subscribers == old(subscribers)
      ensures r.Fail? <==> kind !in old(publishers)
      ensures r.Fail? ==> r.error == TypeError && publishers == old(publishers)
      ensures r.Done? ==> publishers == Put(old(publishers), kind, PropKey(publisher.id), publisher)
    {
      streamMap := streamMap[PropKey(publisher.streamId) := publisher.id];
      if kind !in publishers {
        return Fail(TypeError);
      }
      publishers := Put(publishers, kind, PropKey(publisher.id), publisher);
      return Done;
    }

    /** `removePublisher`: drop the entry named by the publisher's id or, failing
        that, by the stream map; the stream map itself is not touched. */
    method RemovePublisher(kind: string, publisher: Publisher) returns (r: Outcome)
      requires Valid()
      modifies this
      ensures Valid()
      ensures streams == old(streams) && subscribers == old(subscribers) && streamMap == old(streamMap)
      ensures r.Fail? <==> kind !in old(publishers)
      ensures r.Fail? ==> r.error == TypeError && publishers == old(publishers)
      ensures r.Done? ==>
        publishers == Drop(old(publishers), kind, PropKey(Or(publisher.id, Read(streamMap, PropKey(publisher.streamId)))))
    {
      var id := Or(publisher.id, Read(streamMap, PropKey(publisher.streamId)));
      if kind !in publishers {
        return Fail(TypeError);
      }
      publishers := Drop(publishers, kind, PropKey(id));
      return Done;
    }

    /** `removeAllPublishers`: both buckets replaced by empty ones. */
    method RemoveAllPublishers()
      requires Valid()
      modifies this
      ensures Valid()
      ensures publishers == map["camera" := map[], "screen" := map[]]
      ensures streams == old(streams) && subscribers == old(subscribers) && streamMap == old(streamMap)
    {
      publishers := publishers["camera" := map[]];
      publishers := publishers["screen" := map[]];
    }

    /** `addSubscriber`: file the subscriber under its stream's videoType, with
        no default, and index the stream. No stream, or a type with no bucket,
        throws before anything changes. */
    method AddSubscriber(subscriber: Subscriber) returns (r: Outcome)
      requires Valid()
      modifies this
      ensures Valid()
      ensures streams == old(streams) && publishers == old(publishers)
      ensures r.Fail? <==> SubscriberBucket(subscriber).Err? || SubscriberBucket(subscriber).value !in old(subscribers)
      ensures r.Fail? ==> r.error == TypeError && subscribers == old(subscribers) && streamMap == old(streamMap)
      ensures r.Done? ==>
        && subscribers == Put(old(subscribers), SubscriberBucket(subscriber).value, PropKey(subscriber.id), subscriber)
        && streamMap == old(streamMap)[subscriber.stream.value.id := subscriber.id]
    {
      if subscriber.stream.None? {
        return Fail(TypeError);
      }
      var kind := PropKey(subscriber.stream.value.videoType);
      var streamId := subscriber.stream.value.id;
      if kind !in subscribers {
        return Fail(TypeError);
      }
      subscribers := Put(subscribers, kind, PropKey(subscriber.id), subscriber);
      streamMap := streamMap[streamId := subscriber.id];
      return Done;
    }

    /** `removeSubscriber(subscriber = {})`: delete the subscriber's id from the
        bucket its stream's type names, and nothing else. An argument that is
        `undefined` or has no stream indexes `subscribers[undefined]` and throws. */
    method RemoveSubscriber(subscriber: Option<Subscriber>) returns (r: Outcome)
      requires Valid()
      modifies this
      ensures Valid()
      ensures streams == old(streams) && publishers == old(publishers) && streamMap == old(streamMap)
      ensures r.Fail? <==> subscriber.None? || SubscriberBucket(subscriber.value).Err?
                             || SubscriberBucket(subscriber.value).value !in old(subscribers)
      ensures r.Fail? ==> r.error == TypeError && subscribers == old(subscribers)
      ensures r.Done? ==>
        subscribers == Drop(old(subscribers), SubscriberBucket(subscriber.value).value, PropKey(subscriber.value.id))
    {
      var s := if subscriber.Some? then subscriber.value else Handle(None, None, None);
      var kind := if s.stream.Some? then PropKey(s.stream.value.videoType) else PropKey(None);
      if kind !in subscribers {
        return Fail(TypeError);
      }
      subscribers := Drop(subscribers, kind, PropKey(s.id));
      return Done;
    }

    /** `addStream`. */
    method AddStream(stream: Stream)
      requires Valid()
      modifies this
      ensures Valid()
      ensures streams == old(streams)[stream.id := stream]
      ensures streamMap == old(streamMap) && publishers == old(publishers) && subscribers == old(subscribers)
    {
      streams := streams[stream.id := stream];
    }

    /** `removeStream`: forget the stream and its stream-map entry, then remove
        the subscriber the entry named from the bucket of the stream's type.
        A type with no bucket, or no subscriber under that id, throws after
        both deletions. */
    method RemoveStream(stream: Stream) returns (r: Outcome)
      requires Valid()
      modifies this
      ensures Valid()
      ensures streams == old(streams) - {stream.id} && streamMap == old(streamMap) - {stream.id}
      ensures publishers == old(publishers)
      ensures r.Fail? <==> !Mapped(old(subscribers), old(streamMap), stream)
      ensures r.Fail? ==> r.error == TypeError && subscribers == old(subscribers)
      ensures r.Done? ==>
        subscribers == Drop(old(subscribers), PropKey(stream.videoType),
                            PropKey(old(subscribers)[PropKey(stream.videoType)][MappedKey(old(streamMap), stream)].id))
    {
      var kind := PropKey(stream.videoType);
      var subscriberId := Read(streamMap, stream.id);
      streamMap := streamMap - {stream.id};
      streams := streams - {stream.id};
      if kind !in subscribers {
        return Fail(TypeError);
      }
      var key := PropKey(subscriberId);
      r := RemoveSubscriber(if key in subscribers[kind] then Some(subscribers[kind][key]) else None);
    }

    /** `reset`: fresh empty maps and buckets. */
    method Reset()
      requires Valid()
      modifies this
      ensures Valid()
      ensures streams == map[] && streamMap == map[]
      ensures publishers == map["camera" := map[], "screen" := map[]]
      ensures subscribers == map["camera" := map[], "screen" := map[]]
    {
      streams := map[];
      streamMap := map[];
      publishers := map["camera" := map[], "screen" := map[]];
      subscribers := map["camera" := map[], "screen" := map[]];
    }
  }

  /** The key `removeStream` looks the subscriber up under. */
  function MappedKey(sm: StreamMap, stream: Stream): string
  {
    PropKey(Read(sm, stream.id))
  }

  /** `removeStream` finds a subscriber: the stream's type has a bucket and the
      stream map names an entry of it. */
  predicate Mapped(subs: Buckets, sm: StreamMap, stream: Stream)
  {
    PropKey(stream.videoType) in subs && MappedKey(sm, stream) in subs[PropKey(stream.videoType)]
  }
}
