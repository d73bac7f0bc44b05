/**
  The records the two state stores keep: engine streams, and the publisher
  and subscriber handles the engine returns, filed in per-type buckets.
 */
module Entities {
  import opened Js
  import opened Util

  /** An engine stream: its `id`, its `streamId` (the engine sets both) and its
      `videoType` ('camera', 'screen', ...; absent for a SIP stream). */
  datatype Stream = Stream(id: string, streamId: string, videoType: Option<string>)

  /** A publisher or subscriber object of the engine, reduced to the fields the
      stores read: `id`, `streamId` and the `stream` it carries. Any of them
      may be `undefined`. */
  datatype Handle = Handle(id: Option<string>, streamId: Option<string>, stream: Option<Stream>)

  type Publisher = Handle
  type Subscriber = Handle

  /** One bucket (`publishers.camera`, `subscribers.sip`, ...): id to object. */
  type Bucket = map<string, Handle>

  /** The `publishers` or `subscribers` object: type name to bucket. */
  type Buckets = map<string, Bucket>

  /** `streamMap`: stream id to publisher/subscriber id (possibly `undefined`). */
  type StreamMap = map<string, Option<string>>

  /** `pathOr('sip', 'videoType', stream)`: no videoType means SIP. */
  function SipDefault(videoType: Option<string>): string
  {
    if videoType.Some? then videoType.value else "sip"
  }

  /** `bs[t][k] = h`. */
  function Put(bs: Buckets, t: string, k: string, h: Handle): (r: Buckets)
    requires t in bs
    ensures r.Keys == bs.Keys && r[t] == bs[t][k := h]
    ensures forall u | u in bs && u != t :: r[u] == bs[u]
  {
    bs[t := bs[t][k := h]]
  }

  /** `delete bs[t][k]`; a missing key is a silent no-op. */
  function Drop(bs: Buckets, t: string, k: string): (r: Buckets)
    requires t in bs
    ensures r.Keys == bs.Keys && r[t] == bs[t] - {k}
    ensures forall u | u in bs && u != t :: r[u] == bs[u]
    ensures k !in bs[t] ==> r == bs
  {
    if k in bs[t] then bs[t := bs[t] - {k}] else bs
  }

  /** The sub-bucket of the given keys. */
  function Only(b: Bucket, ks: set<string>): (r: Bucket)
    ensures r.Keys == b.Keys * ks
    ensures forall k | k in r :: r[k] == b[k]
  {
    map k | k in b && k in ks :: b[k]
  }

  /** The `streamMap` keys of the handles stored under the given keys. */
  function StreamKeysOf(b: Bucket, ks: set<string>): set<string>
  {
    set k | k in b && k in ks :: PropKey(b[k].streamId)
  }

  /** Removing one more pending key, for the loops that empty a bucket. */
  lemma OnlyStep(b: Bucket, pending: set<string>, k: string)
    ensures Only(b, pending) - {k} == Only(b, pending - {k})
  {
  }

  lemma OnlyNone(b: Bucket)
    ensures Only(b, {}) == map[]
  {
  }

  lemma StreamKeysOfStep(b: Bucket, done: set<string>, k: string)
    requires k in b
    ensures StreamKeysOf(b, done + {k}) == StreamKeysOf(b, done) + {PropKey(b[k].streamId)}
  {
  }

  /** `order` lists every key of the set exactly once: the order in which a
      loop over `Object.keys` or `Object.values` visits them. */
  predicate Enumerates(order: seq<string>, keys: set<string>)
  {
    && (forall i, j | 0 <= i < j < |order| :: order[i] != order[j])
    && (forall i | 0 <= i < |order| :: order[i] in keys)
    && (forall k | k in keys :: k in order)
  }

  /** Part way through such a loop: `order` lists, once each, exactly the
      keys no longer pending. */
  predicate Visiting(order: seq<string>, keys: set<string>, pending: set<string>)
  {
    && pending <= keys
    && (forall i, j | 0 <= i < j < |order| :: order[i] != order[j])
    && (forall i | 0 <= i < |order| :: order[i] in keys && order[i] !in pending)
    && (forall k | k in keys && k !in pending :: k in order)
  }

  /** Visiting one more pending key. */
  lemma {:induction false} VisitingStep(order: seq<string>, keys: set<string>, pending: set<string>, k: string)
    requires Visiting(order, keys, pending) && k in pending
    ensures Visiting(order + [k], keys, pending - {k})
  {
    var next := order + [k];
    forall i, j | 0 <= i < j < |next|
      ensures next[i] != next[j]
    {
      if j == |order| {
        assert next[i] == order[i] && order[i] !in pending;
      } else {
        assert next[i] == order[i] && next[j] == order[j];
      }
    }
    forall i | 0 <= i < |next|
      ensures next[i] in keys && next[i] !in pending - {k}
    {
      if i < |order| {
        assert next[i] == order[i];
      }
    }
    forall x | x in keys && x !in pending - {k}
      ensures x in next
    {
      if x != k {
        assert x in order;
        var i :| 0 <= i < |order| && order[i] == x;
        assert next[i] == x;
      } else {
        assert next[|order|] == k;
      }
    }
  }

  /** At the end of the loop the order enumerates the keys. */
  lemma VisitingDone(order: seq<string>, keys: set<string>)
    requires Visiting(order, keys, {})
    ensures Enumerates(order, keys)
  {
  }

  /** Every handle of the bucket is stored under its own id, and that id is
      truthy: what the engine's objects give, and what lets a removal by
      `publisher.id` find the entry. */
  predicate BucketKeyed(b: Bucket)
  {
    forall k | k in b :: b[k].id == Some(k) && k != ""
  }

  predicate Keyed(bs: Buckets)
  {
    forall t | t in bs :: BucketKeyed(bs[t])
  }

  /** The `total` the reduce in `pubSubCount` accumulates over the bucket names. */
  function Total(bs: Buckets, names: seq<string>): nat
    requires forall i | 0 <= i < |names| :: names[i] in bs
  {
    if names == [] then 0 else |bs[names[0]]| + Total(bs, names[1..])
  }

  lemma TotalOfTwo(bs: Buckets, a: string, b: string)
    requires a in bs && b in bs
    ensures Total(bs, [a, b]) == |bs[a]| + |bs[b]|
  {
    assert [a, b][1..] == [b] && [b][1..] == [];
    assert Total(bs, [b]) == |bs[b]|;
  }

  lemma TotalOfThree(bs: Buckets, a: string, b: string, c: string)
    requires a in bs && b in bs && c in bs
    ensures Total(bs, [a, b, c]) == |bs[a]| + |bs[b]| + |bs[c]|
  {
    assert [a, b, c][1..] == [b, c];
    TotalOfTwo(bs, b, c);
  }

  /** A stream as a JavaScript object. */
  function StreamJson(s: Stream): Json
  {
    Obj(map["id" := Str(s.id), "streamId" := Str(s.streamId)]
        + (if s.videoType.Some? then map["videoType" := Str(s.videoType.value)] else map[]))
  }

  /** A handle as a JavaScript object. */
  function HandleJson(h: Handle): Json
  {
    Obj((if h.id.Some? then map["id" := Str(h.id.value)] else map[])
        + (if h.streamId.Some? then map["streamId" := Str(h.streamId.value)] else map[])
        + (if h.stream.Some? then map["stream" := StreamJson(h.stream.value)] else map[]))
  }

  /** `pathOr('sip', 'videoType', stream)` on a stream object is SipDefault. */
  lemma VideoTypeByPathOr(s: Stream)
    ensures PathOr(Str("sip"), Dotted("videoType"), StreamJson(s)) == Ok(Str(SipDefault(s.videoType)))
  {
    SplitWithoutSeparator("videoType", '.');
    assert Properties(Dotted("videoType")) == ["videoType"];
    WalkOneKey(StreamJson(s), "videoType");
    StreamJsonVideoType(s);
  }

  /** The `videoType` property of a stream object: the stream's videoType, or
      `undefined` when it has none. */
  lemma StreamJsonVideoType(s: Stream)
    ensures Get(StreamJson(s), "videoType") == Ok(if s.videoType.Some? then Str(s.videoType.value) else Undefined)
  {
    var fields := map["id" := Str(s.id), "streamId" := Str(s.streamId)];
    assert "videoType" !in fields;
  }

  /** The dotted path 'stream.videoType' is the two keys it names. */
  lemma StreamVideoTypeKeys()
    ensures Properties(Dotted("stream.videoType")) == ["stream", "videoType"]
  {
    var a, b := "stream", "videoType";
    assert a + ['.'] + b == "stream.videoType";
    DottedPair(a, b);
  }

  /** A dotted path of two separator-free names is those two keys. */
  lemma DottedPair(a: string, b: string)
    requires '.' !in a && '.' !in b
    ensures Properties(Dotted(a + ['.'] + b)) == [a, b]
  {
    SplitAtSeparator(a, b, '.');
    SplitWithoutSeparator(b, '.');
  }

  /** `path('stream.videoType', handle)`: the stream's videoType, or
      `undefined` when the handle has no stream or the stream no videoType. */
  lemma StreamVideoTypeByPath(h: Handle)
    ensures Walk(HandleJson(h), Properties(Dotted("stream.videoType"))) == StreamVideoType(h)
  {
    StreamVideoTypeKeys();
    StreamVideoTypeWalk(h);
  }

  /** What `path('stream.videoType', handle)` yields, as a JavaScript value. */
  function StreamVideoType(h: Handle): Result<Json>
  {
    if h.stream.Some? && h.stream.value.videoType.Some?
    then Ok(Str(h.stream.value.videoType.value)) else Ok(Undefined)
  }

  lemma StreamVideoTypeWalk(h: Handle)
    ensures Walk(HandleJson(h), ["stream", "videoType"]) == StreamVideoType(h)
  {
    var j := HandleJson(h);
    WalkTwoKeys(j, "stream", "videoType");
    if h.stream.Some? {
      var sj := StreamJson(h.stream.value);
      assert Get(j, "stream") == Ok(sj);
      WalkOneKey(sj, "videoType");
    } else {
      assert Get(j, "stream") == Ok(Undefined);
    }
  }

  /** `pathOr('sip', 'stream.videoType', subscriber)`: the type a subscriber is
      filed under. */
  function SubscriberType(h: Handle): string
  {
    if h.stream.Some? then SipDefault(h.stream.value.videoType) else "sip"
  }

  lemma SubscriberTypeByPathOr(h: Handle)
    ensures PathOr(Str("sip"), Dotted("stream.videoType"), HandleJson(h)) == Ok(Str(SubscriberType(h)))
  {
    StreamVideoTypeByPath(h);
  }
}
