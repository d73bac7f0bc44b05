/**
  The accelerator core's state module: the records of every publisher,
  subscriber and stream of the session, and the index from stream ids to the
  publisher or subscriber showing them. The module's variables are the
  fields of one `Store`; its functions are the methods below.
 */
module SessionState {
  import opened Js
  import opened Entities

  /** The bucket names `publishers` and `subscribers` start with. */
  const PublisherTypes: seq<string> := ["camera", "screen"]
  const SubscriberTypes: seq<string> := ["camera", "screen", "sip"]

  /** The `meta` object `pubSubCount` builds. */
  datatype PublisherCounts = PublisherCounts(camera: nat, screen: nat, total: nat)
  datatype SubscriberCounts = SubscriberCounts(camera: nat, screen: nat, sip: nat, total: nat)
  datatype Meta = Meta(publisher: PublisherCounts, subscriber: SubscriberCounts)

  /** What `getPubSub` returns. */
  datatype PubSub = PubSub(publishers: Buckets, subscribers: Buckets, meta: Meta)

  /** What `all` returns: the streams and the stream map beside `getPubSub()`. */
  datatype Snapshot = Snapshot(streams: map<string, Stream>, streamMap: StreamMap, pubSub: PubSub)

  /** A subscriber is filed under bucket `t` when it has a stream whose type,
      'sip' by default, is `t`. */
  predicate FiledUnder(h: Handle, t: string)
  {
    h.stream.Some? && SipDefault(h.stream.value.videoType) == t
  }

  predicate BucketFiled(b: Bucket, t: string)
  {
    forall k | k in b :: FiledUnder(b[k], t)
  }

  /** The counts describe the given buckets: one count per bucket, and totals
      that are their sums. */
  predicate MetaMatches(m: Meta, pubs: Buckets, subs: Buckets)
  {
    && "camera" in pubs && "screen" in pubs
    && "camera" in subs && "screen" in subs && "sip" in subs
    && m.publisher.camera == |pubs["camera"]|
    && m.publisher.screen == |pubs["screen"]|
    && m.publisher.total == m.publisher.camera + m.publisher.screen
    && m.subscriber.camera == |subs["camera"]|
    && m.subscriber.screen == |subs["screen"]|
    && m.subscriber.sip == |subs["sip"]|
    && m.subscriber.total == m.subscriber.camera + m.subscriber.screen + m.subscriber.sip
  }

  /** The counts of the given buckets, as `pubSubCount` computes them. */
  function CountsOf(pubs: Buckets, subs: Buckets): (m: Meta)
    requires "camera" in pubs && "screen" in pubs
    requires "camera" in subs && "screen" in subs && "sip" in subs
    ensures MetaMatches(m, pubs, subs)
  {
    TotalOfTwo(pubs, "camera", "screen");
    TotalOfThree(subs, "camera", "screen", "sip");
    Meta(PublisherCounts(|pubs["camera"]|, |pubs["screen"]|, Total(pubs, PublisherTypes)),
         SubscriberCounts(|subs["camera"]|, |subs["screen"]|, |subs["sip"]|, Total(subs, SubscriberTypes)))
  }

  /** The object `getPubSub` builds from the given buckets. */
  function PubSubOf(pubs: Buckets, subs: Buckets): PubSub
    requires "camera" in pubs && "screen" in pubs
    requires "camera" in subs && "screen" in subs && "sip" in subs
  {
    PubSub(pubs, subs, CountsOf(pubs, subs))
  }

  class Store {
    var streams: map<string, Stream>
    var streamMap: StreamMap
    var publishers: Buckets
    var subscribers: Buckets

    /** The bucket names never change, and every subscriber sits in the
        bucket its stream's type names. */
    predicate Valid()
      reads this
    {
      && publishers.Keys == {"camera", "screen"}
      && subscribers.Keys == {"camera", "screen", "sip"}
      && forall t | t in subscribers :: BucketFiled(subscribers[t], t)
    }

    /** The module's initial state. */
    constructor ()
      ensures Valid()
      ensures streams == map[] && streamMap == map[]
      ensures publishers == map["camera" := map[], "screen" := map[]]
      ensures subscribers == map["camera" := map[], "screen" := map[], "sip" := map[]]
    {
      streams := map[];
      streamMap := map[];
      publishers := map["camera" := map[], "screen" := map[]];
      subscribers := map["camera" := map[], "screen" := map[], "sip" := map[]];
    }

    /** `pubSubCount`: the size of each bucket and the total per side. */
    function PubSubCount(): (m: Meta)
      reads this
      requires Valid()
      ensures MetaMatches(m, publishers, subscribers)
    {
      CountsOf(publishers, subscribers)
    }

    /** `getPubSub`: the current buckets with counts computed from them. */
    function GetPubSub(): (p: PubSub)
      reads this
      requires Valid()
      ensures p.publishers == publishers && p.subscribers == subscribers
      ensures MetaMatches(p.meta, p.publishers, p.subscribers)
    {
      PubSubOf(publishers, subscribers)
    }

    /** `all`. */
    function All(): (s: Snapshot)
      reads this
      requires Valid()
      ensures s.streams == streams && s.streamMap == streamMap
      ensures s.pubSub.publishers == publishers && s.pubSub.subscribers == subscribers
      ensures MetaMatches(s.pubSub.meta, publishers, subscribers)
    {
      Snapshot(streams, streamMap, GetPubSub())
    }

    function GetStreams(): map<string, Stream>
      reads this
    {
      streams
    }

    function GetStreamMap(): StreamMap
      reads this
    {
      streamMap
    }

    /** `addStream`: record the stream under its id. */
    method AddStream(stream: Stream)
      requires Valid()
      modifies this
      ensures Valid()
      ensures streams == old(streams)[stream.id := stream]
      ensures streamMap == old(streamMap)
      ensures publishers == old(publishers) && subscribers == old(subscribers)
    {
      streams := streams[stream.id := stream];
    }

    /** `removeStream`: forget the stream, its stream-map entry and the
        subscriber that entry names, looked up in the bucket of the stream's
        type. A type with no bucket throws after the stream map was changed. */
    method RemoveStream(stream: Stream) returns (r: Outcome)
      requires Valid()
      modifies this
      ensures Valid()
      ensures streamMap == old(streamMap) - {stream.id}
      ensures publishers == old(publishers)
      ensures r.Fail? <==> SipDefault(stream.videoType) !in old(subscribers)
      ensures r.Fail? ==> r.error == TypeError && streams == old(streams) && subscribers == old(subscribers)
      ensures r.Done? ==> streams == old(streams) - {stream.id}
      ensures r.Done? ==>
        subscribers == Drop(old(subscribers), SipDefault(stream.videoType), PropKey(Read(old(streamMap), stream.id)))
    {
      var kind := SipDefault(stream.videoType);
      var subscriberId := Read(streamMap, stream.id);
      streamMap := streamMap - {stream.id};
      if kind !in subscribers {
        return Fail(TypeError);
      }
      subscribers := Drop(subscribers, kind, PropKey(subscriberId));
      streams := streams - {stream.id};
      return Done;
    }

    /** `addPublisher`: index the publisher's stream, then file the publisher
        under its id in the bucket of `kind` (the source's `type`). A kind with no bucket throws
        after the stream map was changed. */
    method AddPublisher(kind: string, publisher: Publisher) returns (r: Outcome)
      requires Valid()
      modifies this
      ensures Valid()
      ensures streamMap == old(streamMap)[PropKey(publisher.streamId) := publisher.id]
      ensures streams == old(streams) && subscribers == old(subscribers)
      ensures r.Fail? <==> kind !in old(publishers)
      ensures r.Fail? ==> r.error == TypeError && publishers == old(publishers)
      ensures r.Done? ==> publishers == Put(old(publishers), kind, PropKey(publisher.id), publisher)
    {
      streamMap := streamMap[PropKey(publisher.streamId) := publisher.id];
      if kind !in publishers {
        return Fail(TypeError);
      }
      publishers := Put(publishers, kind, PropKey(publisher.id), publisher);
      return Done;
    }

    /** `removePublisher`: drop the entry named by the publisher's id, or
        failing that by its stream's entry in the stream map, then the stream
        map entry itself. */
    method RemovePublisher(kind: string, publisher: Publisher) returns (r: Outcome)
      requires Valid()
      modifies this
      ensures Valid()
      ensures streams == old(streams) && subscribers == old(subscribers)
      ensures r.Fail? <==> kind !in old(publishers)
      ensures r.Fail? ==> r.error == TypeError && publishers == old(publishers) && streamMap == old(streamMap)
      ensures r.Done? ==>
        publishers == Drop(old(publishers), kind, PropKey(Or(publisher.id, Read(old(streamMap), PropKey(publisher.streamId)))))
      ensures r.Done? ==> streamMap == old(streamMap) - {PropKey(publisher.streamId)}
    {
      var id := Or(publisher.id, Read(streamMap, PropKey(publisher.streamId)));
      if kind !in publishers {
        return Fail(TypeError);
      }
      publishers := Drop(publishers, kind, PropKey(id));
      streamMap := streamMap - {PropKey(publisher.streamId)};
      return Done;
    }

    /** One pass of `removeAllPublishers`: `removePublisher(type, p)` for each
        value of the bucket as it was when the pass started. */
    method RemovePublishersOf(kind: string)
      requires Valid() && kind in publishers
      modifies this
      ensures Valid()
      ensures streams == old(streams) && subscribers == old(subscribers)
      ensures publishers.Keys == old(publishers).Keys
      ensures forall t | t in publishers && t != kind :: publishers[t] == old(publishers)[t]
      ensures streamMap == old(streamMap) - StreamKeysOf(old(publishers)[kind], old(publishers)[kind].Keys)
      ensures BucketKeyed(old(publishers)[kind]) ==> publishers[kind] == map[]
    {
      var snapshot := publishers[kind];
      var pending := snapshot.Keys;
      ghost var done: set<string> := {};
      while pending != {}
        invariant pending !! done && pending + done == snapshot.Keys
        invariant Valid() && publishers.Keys == old(publishers).Keys
        invariant streams == old(streams) && subscribers == old(subscribers)
        invariant forall t | t in publishers && t != kind :: publishers[t] == old(publishers)[t]
        invariant streamMap == old(streamMap) - StreamKeysOf(snapshot, done)
        invariant BucketKeyed(snapshot) ==> publishers[kind] == Only(snapshot, pending)
        decreases pending
      {
        var k :| k in pending;
        var outcome := RemovePublisher(kind, snapshot[k]);
        StreamKeysOfStep(snapshot, done, k);
        if BucketKeyed(snapshot) {
          OnlyStep(snapshot, pending, k);
        }
        pending := pending - {k};
        done := done + {k};
      }
      OnlyNone(snapshot);
    }

    /** `removeAllPublishers`: empty the camera bucket, then the screen one.
        The stream map loses the stream ids of every publisher removed. */
    method RemoveAllPublishers()
      requires Valid()
      modifies this
      ensures Valid()
      ensures streams == old(streams) && subscribers == old(subscribers)
      ensures streamMap == old(streamMap)
        - StreamKeysOf(old(publishers)["camera"], old(publishers)["camera"].Keys)
        - StreamKeysOf(old(publishers)["screen"], old(publishers)["screen"].Keys)
      ensures Keyed(old(publishers)) ==> publishers == map["camera" := map[], "screen" := map[]]
    {
      RemovePublishersOf("camera");
      RemovePublishersOf("screen");
      if Keyed(old(publishers)) {
        assert BucketKeyed(old(publishers)["camera"]) && BucketKeyed(old(publishers)["screen"]);
        assert publishers == map["camera" := map[], "screen" := map[]];
      }
    }

    /** `addSubscriber`: read the subscriber's stream (a subscriber without one
        throws), file it under its id in the bucket of its stream's type (a
        type with no bucket throws), then index the stream. */
    method AddSubscriber(subscriber: Subscriber) returns (r: Outcome)
      requires Valid()
      modifies this
      ensures Valid()
      ensures streams == old(streams) && publishers == old(publishers)
      ensures r.Fail? <==> subscriber.stream.None? || SubscriberType(subscriber) !in old(subscribers)
      ensures r.Fail? ==> r.error == TypeError && subscribers == old(subscribers) && streamMap == old(streamMap)
      ensures r.Done? ==> subscribers == Put(old(subscribers), SubscriberType(subscriber), PropKey(subscriber.id), subscriber)
      ensures r.Done? ==> streamMap == old(streamMap)[subscriber.stream.value.id := subscriber.id]
    {
      if subscriber.stream.None? {
        return Fail(TypeError);
      }
      var streamId := subscriber.stream.value.id;
      var kind := SubscriberType(subscriber);
      if kind !in subscribers {
        return Fail(TypeError);
      }
      subscribers := Put(subscribers, kind, PropKey(subscriber.id), subscriber);
      streamMap := streamMap[streamId := subscriber.id];
      return Done;
    }

    /** `removeSubscriber(type, subscriber)`: as `removePublisher`, on the
        subscriber buckets. */
    method RemoveSubscriber(kind: string, subscriber: Subscriber) returns (r: Outcome)
      requires Valid()
      modifies this
      ensures Valid()
      ensures streams == old(streams) && publishers == old(publishers)
      ensures r.Fail? <==> kind !in old(subscribers)
      ensures r.Fail? ==> r.error == TypeError && subscribers == old(subscribers) && streamMap == old(streamMap)
      ensures r.Done? ==>
        subscribers == Drop(old(subscribers), kind, PropKey(Or(subscriber.id, Read(old(streamMap), PropKey(subscriber.streamId)))))
      ensures r.Done? ==> streamMap == old(streamMap) - {PropKey(subscriber.streamId)}
    {
      var id := Or(subscriber.id, Read(streamMap, PropKey(subscriber.streamId)));
      if kind !in subscribers {
        return Fail(TypeError);
      }
      subscribers := Drop(subscribers, kind, PropKey(id));
      streamMap := streamMap - {PropKey(subscriber.streamId)};
      return Done;
    }

    /** One pass of `removeAllSubscribers`. */
    method RemoveSubscribersOf(kind: string)
      requires Valid() && kind in subscribers
      modifies this
      ensures Valid()
      ensures streams == old(streams) && publishers == old(publishers)
      ensures subscribers.Keys == old(subscribers).Keys
      ensures forall t | t in subscribers && t != kind :: subscribers[t] == old(subscribers)[t]
      ensures streamMap == old(streamMap) - StreamKeysOf(old(subscribers)[kind], old(subscribers)[kind].Keys)
      ensures BucketKeyed(old(subscribers)[kind]) ==> subscribers[kind] == map[]
    {
      var snapshot := subscribers[kind];
      var pending := snapshot.Keys;
      ghost var done: set<string> := {};
      while pending != {}
        invariant pending !! done && pending + done == snapshot.Keys
        invariant Valid() && subscribers.Keys == old(subscribers).Keys
        invariant streams == old(streams) && publishers == old(publishers)
        invariant forall t | t in subscribers && t != kind :: subscribers[t] == old(subscribers)[t]
        invariant streamMap == old(streamMap) - StreamKeysOf(snapshot, done)
        invariant BucketKeyed(snapshot) ==> subscribers[kind] == Only(snapshot, pending)
        decreases pending
      {
        var k :| k in pending;
        var outcome := RemoveSubscriber(kind, snapshot[k]);
        StreamKeysOfStep(snapshot, done, k);
        if BucketKeyed(snapshot) {
          OnlyStep(snapshot, pending, k);
        }
        pending := pending - {k};
        done := done + {k};
      }
      OnlyNone(snapshot);
    }

    /** `removeAllSubscribers`: the camera, screen and sip buckets in turn. */
    method RemoveAllSubscribers()
      requires Valid()
      modifies this
      ensures Valid()
      ensures streams == old(streams) && publishers == old(publishers)
      ensures streamMap == old(streamMap)
        - StreamKeysOf(old(subscribers)["camera"], old(subscribers)["camera"].Keys)
        - StreamKeysOf(old(subscribers)["screen"], old(subscribers)["screen"].Keys)
        - StreamKeysOf(old(subscribers)["sip"], old(subscribers)["sip"].Keys)
      ensures Keyed(old(subscribers)) ==> subscribers == map["camera" := map[], "screen" := map[], "sip" := map[]]
    {
      RemoveSubscribersOf("camera");
      RemoveSubscribersOf("screen");
      RemoveSubscribersOf("sip");
      if Keyed(old(subscribers)) {
        assert BucketKeyed(old(subscribers)["camera"]) && BucketKeyed(old(subscribers)["screen"]);
        assert BucketKeyed(old(subscribers)["sip"]);
        assert subscribers == map["camera" := map[], "screen" := map[], "sip" := map[]];
      }
    }

    /** `reset`: remove every publisher and subscriber, then delete every key
        of `streams` and of `streamMap`. */
    method Reset()
      requires Valid()
      modifies this
      ensures Valid()
      ensures streams == map[] && streamMap == map[]
      ensures Keyed(old(publishers)) ==> publishers == map["camera" := map[], "screen" := map[]]
      ensures Keyed(old(subscribers)) ==> subscribers == map["camera" := map[], "screen" := map[], "sip" := map[]]
    {
      RemoveAllPublishers();
      RemoveAllSubscribers();
      ghost var pubs, subs := publishers, subscribers;
      while streams != map[]
        invariant Valid() && publishers == pubs && subscribers == subs
        decreases streams.Keys
      {
        var id :| id in streams;
        streams := streams - {id};
      }
      while streamMap != map[]
        invariant Valid() && streams == map[] && publishers == pubs && subscribers == subs
        decreases streamMap.Keys
      {
        var id :| id in streamMap;
        streamMap := streamMap - {id};
      }
    }
  }
}
