/**
  The communication layer of the accelerator core: it publishes the local
  camera, subscribes to the session's streams, keeps the state module up to
  date and announces every change on the core's event bus.

  The module's variables (`accPack`, the properties, `connectionLimit`,
  `autoSubscribe`, `active`) are the fields of one `Coordinator`; the state
  module, the event bus and the engine session are objects it shares with
  the core.
 */
module Communication {
  import opened Js
  import opened Util
  import opened Entities
  import opened EventBus
  import opened SessionState
  import opened Engine
  import opened Payloads

  /** The default UI properties of publishers and subscribers. */
  const DefaultCallProperties: Json := Obj(map[
    "insertMode" := Str("append"),
    "width" := Str("100%"),
    "height" := Str("100%"),
    "showControls" := Bool(false),
    "style" := Obj(map["buttonDisplayMode" := Str("off")])])

  /** The own properties `Object.assign` copies from a source: those of an
      object, none of `undefined` or `null`. */
  function Fields(v: Json): map<string, Json>
  {
    if v.Obj? then v.fields else map[]
  }

  /** `Object.assign({}, a, b)`: every property of `b`, and the properties of
      `a` that `b` does not override. */
  function Assign(a: Json, b: Json): (r: Json)
    ensures r.Obj? && r.fields.Keys == Fields(a).Keys + Fields(b).Keys
    ensures forall k | k in Fields(b) :: r.fields[k] == Fields(b)[k]
    ensures forall k | k in Fields(a) && k !in Fields(b) :: r.fields[k] == Fields(a)[k]
  {
    Obj(Fields(a) + Fields(b))
  }

  /** The screen-share default: the call defaults plus `videoSource: 'window'`. */
  const DefaultScreenProperties: Json := Assign(DefaultCallProperties, Obj(map["videoSource" := Str("window")]))

  lemma ScreenDefaultsExtendCallDefaults()
    ensures DefaultScreenProperties.Obj?
    ensures DefaultScreenProperties.fields == DefaultCallProperties.fields["videoSource" := Str("window")]
  {
    var r := DefaultScreenProperties;
    assert r.fields.Keys == DefaultCallProperties.fields.Keys + {"videoSource"};
  }

  /** The options `init` receives, as far as `validateOptions` reads them.
      `autoSubscribe` is None when the options object has no such key, and
      Some(Undefined) when it has one holding `undefined`. A connection limit
      is a number or absent. */
  datatype Options = Options(
    accPack: Json,
    callProperties: Json,
    screenProperties: Json,
    connectionLimit: Option<int>,
    autoSubscribe: Option<Json>)

  /** The module variables `validateOptions` sets. `connectionLimit` None is
      `null`; `autoSubscribe` is the truthiness of the stored value. */
  datatype Settings = Settings(
    callProperties: Json,
    screenProperties: Json,
    connectionLimit: Option<int>,
    autoSubscribe: bool)

  /** The module variables before `init`: all `undefined`. */
  const Unset: Settings := Settings(Undefined, Undefined, None, false)

  /** `validateOptions`: `accPack` is required; every other option has a
      default. */
  function ValidateOptions(o: Options): (r: Result<Settings>)
    ensures r.Err? <==> !JsonTruthy(o.accPack)
    ensures r.Err? ==> r.error == CoreError("accPack is a required option.", "invalidParameters")
    ensures r.Ok? ==> JsonTruthy(o.callProperties) ==> r.value.callProperties == o.callProperties
    ensures r.Ok? ==> !JsonTruthy(o.callProperties) ==> r.value.callProperties == DefaultCallProperties
    ensures r.Ok? ==> JsonTruthy(o.screenProperties) ==> r.value.screenProperties == o.screenProperties
    ensures r.Ok? ==> !JsonTruthy(o.screenProperties) ==> r.value.screenProperties == DefaultScreenProperties
    ensures r.Ok? ==> (r.value.connectionLimit.Some? <==> o.connectionLimit.Some? && o.connectionLimit.value != 0)
    ensures r.Ok? ==> r.value.connectionLimit.Some? ==> r.value.connectionLimit == o.connectionLimit
    ensures r.Ok? ==> (r.value.autoSubscribe <==> o.autoSubscribe.None? || JsonTruthy(o.autoSubscribe.value))
  {
    var option := "accPack";
    if !JsonTruthy(o.accPack) then Err(CoreError(option + " is a required option.", "invalidParameters"))
    else
      Ok(Settings(
        if JsonTruthy(o.callProperties) then o.callProperties else DefaultCallProperties,
        if JsonTruthy(o.screenProperties) then o.screenProperties else DefaultScreenProperties,
        if o.connectionLimit.Some? && o.connectionLimit.value != 0 then o.connectionLimit else None,
        if o.autoSubscribe.Some? then JsonTruthy(o.autoSubscribe.value) else true))
  }

  /** Only an absent `autoSubscribe` key turns auto-subscription on by
      default: a key holding `undefined` (or any falsy value) turns it off. */
  lemma AutoSubscribeDefault(o: Options)
    requires JsonTruthy(o.accPack)
    ensures o.autoSubscribe.None? ==> ValidateOptions(o).value.autoSubscribe
    ensures o.autoSubscribe == Some(Undefined) ==> !ValidateOptions(o).value.autoSubscribe
    ensures o.autoSubscribe == Some(Bool(false)) ==> !ValidateOptions(o).value.autoSubscribe
  {
  }

  /** The number of camera streams in the session. */
  function CameraCount(streams: map<string, Stream>): nat
  {
    |set k | k in streams && streams[k].videoType == Some("camera")|
  }

  /** `ableToJoin`: with no limit anyone joins; otherwise only while there
      are fewer camera streams than the limit. */
  function AbleToJoin(limit: Option<int>, streams: map<string, Stream>): (b: bool)
  {
    limit.None? || CameraCount(streams) < limit.value
  }

  /** A new camera stream adds one to the count. */
  lemma CameraCountAddCamera(streams: map<string, Stream>, s: Stream)
    requires s.id !in streams && s.videoType == Some("camera")
    ensures CameraCount(streams[s.id := s]) == CameraCount(streams) + 1
  {
    var before := set k | k in streams && streams[k].videoType == Some("camera");
    var t := streams[s.id := s];
    var after := set k | k in t && t[k].videoType == Some("camera");
    assert after == before + {s.id};
  }

  /** A stream of any other type, replacing no camera stream, leaves the
      count alone. */
  lemma CameraCountAddOther(streams: map<string, Stream>, s: Stream)
    requires s.videoType != Some("camera")
    requires s.id in streams ==> streams[s.id].videoType != Some("camera")
    ensures CameraCount(streams[s.id := s]) == CameraCount(streams)
  {
    var before := set k | k in streams && streams[k].videoType == Some("camera");
    var t := streams[s.id := s];
    var after := set k | k in t && t[k].videoType == Some("camera");
    assert after == before;
  }

  /** No limit lets everyone join; a positive limit is reached by the camera
      stream that brings the count up to it. */
  lemma AbleToJoinLimit(limit: Option<int>, streams: map<string, Stream>, s: Stream)
    requires s.id !in streams && s.videoType == Some("camera")
    ensures limit.None? ==> AbleToJoin(limit, streams) && AbleToJoin(limit, streams[s.id := s])
    ensures limit.Some? && CameraCount(streams) + 1 == limit.value ==>
      AbleToJoin(limit, streams) && !AbleToJoin(limit, streams[s.id := s])
  {
    CameraCountAddCamera(streams, s);
  }

  /** The message of the 'error' event for a failed publisher: a network
      failure (code 1010) gets a hint, anything else its own message. */
  function PublishErrorMessage(e: Error): (m: string)
    ensures e.EngineError? && e.code == 1010 ==> m == "Check your network connection"
    ensures !(e.EngineError? && e.code == 1010) ==> m == MessageOf(e)
  {
    if e.EngineError? && e.code == 1010 then "Check your network connection" else MessageOf(e)
  }

  const ConnectionLimitMessage := "Session has reached its connection limit"

  /** The properties a subscription of the given type uses. */
  function SubscribeProperties(s: Settings, kind: string): (p: Json)
    ensures kind == "camera" ==> p == s.callProperties
    ensures kind != "camera" ==> p == s.screenProperties
  {
    if kind == "camera" then s.callProperties else s.screenProperties
  }

  /** The events a completed subscription announces: 'subscribeTo<Type>' with
      the subscriber and the whole state and, for a screen, the legacy
      'startViewingSharedScreen' with the subscriber alone. */
  function SubscribeEvents(suffix: string, kind: string, subscriber: Subscriber, state: Snapshot): seq<Event<Payload>>
  {
    [Event("subscribeTo" + suffix, WithState(subscriber, state))]
      + (if kind == "screen" then [Event("startViewingSharedScreen", SubscriberData(subscriber))] else [])
  }

  /** The events a destroyed stream announces: the legacy
      'endViewingSharedScreen' for a screen, then 'unsubscribeFrom<Type>'
      with the counts. */
  function UnsubscribeEvents(suffix: string, kind: string, pubSub: PubSub): seq<Event<Payload>>
  {
    (if kind == "screen" then [Event("endViewingSharedScreen", NoData)] else [])
      + [Event("unsubscribeFrom" + suffix, Counts(pubSub))]
  }

  /** The event names of the three subscriber types. */
  lemma EventNamesOfTypes(sub: Subscriber, state: Snapshot, pubSub: PubSub)
    ensures SubscribeEvents(ProperCase("camera").value, "camera", sub, state)
            == [Event("subscribeToCamera", WithState(sub, state))]
    ensures SubscribeEvents(ProperCase("screen").value, "screen", sub, state)
            == [Event("subscribeToScreen", WithState(sub, state)), Event("startViewingSharedScreen", SubscriberData(sub))]
    ensures SubscribeEvents(ProperCase("sip").value, "sip", sub, state)
            == [Event("subscribeToSip", WithState(sub, state))]
    ensures UnsubscribeEvents(ProperCase("camera").value, "camera", pubSub)
            == [Event("unsubscribeFromCamera", Counts(pubSub))]
    ensures UnsubscribeEvents(ProperCase("screen").value, "screen", pubSub)
            == [Event("endViewingSharedScreen", NoData), Event("unsubscribeFromScreen", Counts(pubSub))]
    ensures UnsubscribeEvents(ProperCase("sip").value, "sip", pubSub)
            == [Event("unsubscribeFromSip", Counts(pubSub))]
  {
    ProperCaseOfTypes();
    assert "subscribeTo" + "Camera" == "subscribeToCamera";
    assert "subscribeTo" + "Screen" == "subscribeToScreen";
    assert "subscribeTo" + "Sip" == "subscribeToSip";
    assert "unsubscribeFrom" + "Camera" == "unsubscribeFromCamera";
    assert "unsubscribeFrom" + "Screen" == "unsubscribeFromScreen";
    assert "unsubscribeFrom" + "Sip" == "unsubscribeFromSip";
  }

  /** A subscription never announces 'startCall'. */
  lemma SubscribeEventsAreNotStartCall(suffix: string, kind: string, sub: Subscriber, state: Snapshot)
    ensures forall e | e in SubscribeEvents(suffix, kind, sub, state) :: e.name != "startCall"
  {
    var es := SubscribeEvents(suffix, kind, sub, state);
    forall e | e in es ensures e.name != "startCall" {
      assert e.name[1] == 'u' || e.name[1] == 't';
      assert e.name[1] == 't' ==> e.name[2] == 'a' && e.name[5] == 'V';
    }
  }

  /** The method `enableLocalAV` calls on a publisher: 'publish' + the
      proper-cased source. */
  function LocalAVMethod(source: string): (r: Result<string>)
    ensures r.Err? <==> source == []
    ensures r.Ok? ==> r.value == "publish" + Capitalized(source)
  {
    if source == [] then Err(TypeError) else Ok("publish" + Capitalized(source))
  }

  /** The method `enableRemoteAV` calls on a subscriber. */
  function RemoteAVMethod(source: string): (r: Result<string>)
    ensures r.Err? <==> source == []
    ensures r.Ok? ==> r.value == "subscribeTo" + Capitalized(source)
  {
    if source == [] then Err(TypeError) else Ok("subscribeTo" + Capitalized(source))
  }

  /** The audio and video methods of the engine's publisher and subscriber
      objects. */
  const PublisherAVMethods: set<string> := {"publishAudio", "publishVideo"}
  const SubscriberAVMethods: set<string> := {"subscribeToAudio", "subscribeToVideo"}

  /** Proper-casing changes the first letter only: the texts that become a
      capitalised `target` are `target` itself and `target` with a lower-case
      first letter. */
  lemma CapitalizedIs(source: string, target: string, lower: char)
    requires source != [] && target != [] && 'A' <= target[0] <= 'Z'
    requires lower as int == target[0] as int + 32
    ensures Capitalized(source) == target <==>
      source[1..] == target[1..] && (source[0] == target[0] || source[0] == lower)
  {
    var c := Capitalized(source);
    assert c == [c[0]] + c[1..] && target == [target[0]] + target[1..];
    assert c[1..] == source[1..];
  }

  /** A non-empty string is its first character followed by the rest. */
  lemma HeadTail(s: string, c: char, t: string)
    requires s != []
    ensures s == [c] + t <==> s[0] == c && s[1..] == t
  {
    if s[0] == c && s[1..] == t {
      assert s == [s[0]] + s[1..];
    }
  }

  lemma SuffixIs(prefix: string, a: string, b: string)
    ensures prefix + a == prefix + b <==> a == b
  {
    if prefix + a == prefix + b {
      assert a == (prefix + a)[|prefix|..];
      assert b == (prefix + b)[|prefix|..];
    }
  }

  /** The sources that name a given capitalised method suffix. */
  lemma SourceNames(source: string, target: string, lower: char)
    requires source != [] && |target| >= 1 && 'A' <= target[0] <= 'Z'
    requires lower as int == target[0] as int + 32
    ensures Capitalized(source) == target <==> source == target || source == [lower] + target[1..]
  {
    CapitalizedIs(source, target, lower);
    HeadTail(source, target[0], target[1..]);
    HeadTail(source, lower, target[1..]);
    assert target == [target[0]] + target[1..];
  }

  /** Exactly the sources 'audio' and 'Audio' (and 'video', 'Video') name
      the publisher's audio (video) method. */
  lemma LocalAVMethods(source: string)
    ensures LocalAVMethod(source) == Ok("publishAudio") <==> source == "audio" || source == "Audio"
    ensures LocalAVMethod(source) == Ok("publishVideo") <==> source == "video" || source == "Video"
  {
    assert "publishAudio" == "publish" + "Audio" && "publishVideo" == "publish" + "Video";
    assert "audio" == ['a'] + "Audio"[1..] && "video" == ['v'] + "Video"[1..];
    if source != [] {
      SuffixIs("publish", Capitalized(source), "Audio");
      SuffixIs("publish", Capitalized(source), "Video");
      SourceNames(source, "Audio", 'a');
      SourceNames(source, "Video", 'v');
    }
  }

  lemma RemoteAVMethods(source: string)
    ensures RemoteAVMethod(source) == Ok("subscribeToAudio") <==> source == "audio" || source == "Audio"
    ensures RemoteAVMethod(source) == Ok("subscribeToVideo") <==> source == "video" || source == "Video"
  {
    assert "subscribeToAudio" == "subscribeTo" + "Audio" && "subscribeToVideo" == "subscribeTo" + "Video";
    assert "audio" == ['a'] + "Audio"[1..] && "video" == ['v'] + "Video"[1..];
    if source != [] {
      SuffixIs("subscribeTo", Capitalized(source), "Audio");
      SuffixIs("subscribeTo", Capitalized(source), "Video");
      SourceNames(source, "Audio", 'a');
      SourceNames(source, "Video", 'v');
    }
  }

  /** The bucket `unsubscribe` removes a subscriber from, as written: the
      value of `path('stream.videoType', subscriber)` used as a property key,
      so a subscriber without a videoType names the bucket "undefined". */
  function UnsubscribeKindAsWritten(h: Subscriber): (k: string)
    ensures StreamVideoType(h) == Ok(Str(k)) || (StreamVideoType(h) == Ok(Undefined) && k == "undefined")
  {
    if h.stream.Some? && h.stream.value.videoType.Some? then h.stream.value.videoType.value else "undefined"
  }

  /** As written, a subscriber to a SIP stream (filed under 'sip', its stream
      has no videoType) names no bucket at all, so removing it throws. */
  lemma SipUnsubscribeAsWrittenThrows(h: Subscriber)
    requires FiledUnder(h, "sip") && h.stream.value.videoType.None?
    ensures Walk(HandleJson(h), Properties(Dotted("stream.videoType"))) == Ok(Undefined)
    ensures UnsubscribeKindAsWritten(h) == "undefined"
    ensures UnsubscribeKindAsWritten(h) !in SubscriberTypes
  {
    StreamVideoTypeByPath(h);
  }

  /** The bucket `unsubscribe` should name: `pathOr('sip', 'stream.videoType',
      subscriber)`, the same default `addSubscriber` files under, so every
      filed subscriber names its own bucket. */
  function UnsubscribeKind(h: Subscriber): (k: string)
    ensures PathOr(Str("sip"), Dotted("stream.videoType"), HandleJson(h)) == Ok(Str(k))
    ensures forall t | FiledUnder(h, t) :: k == t
  {
    SubscriberTypeByPathOr(h);
    SubscriberType(h)
  }

  /** The as-written and the corrected bucket agree except on SIP
      subscribers. */
  lemma UnsubscribeKindsAgree(h: Subscriber, t: string)
    requires FiledUnder(h, t) && t != "sip"
    ensures UnsubscribeKindAsWritten(h) == UnsubscribeKind(h) == t
  {
  }

  /** `Promise.all` over settled subscriptions: it rejects as soon as one
      rejects, never settles while one never settles, and resolves only when
      all resolve. */
  function PromiseAll(os: seq<Settlement<()>>): (r: Settlement<()>)
    ensures r.Resolved? <==> forall i | 0 <= i < |os| :: os[i].Resolved?
    ensures r.Rejected? <==> exists i | 0 <= i < |os| :: os[i].Rejected?
    ensures !r.Resolved? ==> exists i | 0 <= i < |os| :: os[i] == r
    decreases |os|
  {
    if os == [] then Resolved(())
    else
      var rest := PromiseAll(os[1..]);
      assert forall i | 1 <= i < |os| :: os[i] == os[1..][i - 1];
      if os[0].Rejected? then os[0]
      else if rest.Rejected? then rest
      else if os[0].Hanging? then os[0]
      else rest
  }

  /** The engine calls `Object.values(bucket).forEach(unpublish)` makes when
      it visits the keys in `order`. */
  function Unpublishing(b: Bucket, order: seq<string>): (r: seq<EngineCall>)
    requires forall i | 0 <= i < |order| :: order[i] in b
    ensures |r| == |order|
    ensures forall i | 0 <= i < |order| :: r[i] == Unpublish(b[order[i]])
    decreases |order|
  {
    if order == [] then [] else Unpublishing(b, order[..|order| - 1]) + [Unpublish(b[order[|order| - 1]])]
  }

  /** The engine calls `Object.values(bucket).forEach(unsubscribe)` makes. */
  function Unsubscribing(b: Bucket, order: seq<string>): (r: seq<EngineCall>)
    requires forall i | 0 <= i < |order| :: order[i] in b
    ensures |r| == |order|
    ensures forall i | 0 <= i < |order| :: r[i] == Unsubscribe(b[order[i]])
    decreases |order|
  {
    if order == [] then [] else Unsubscribing(b, order[..|order| - 1]) + [Unsubscribe(b[order[|order| - 1]])]
  }

  /** Visiting one more key extends the recorded calls by one. */
  lemma UnsubscribingSnoc(b: Bucket, order: seq<string>, k: string)
    requires forall i | 0 <= i < |order| :: order[i] in b
    requires k in b
    ensures Unsubscribing(b, order + [k]) == Unsubscribing(b, order) + [Unsubscribe(b[k])]
  {
    assert (order + [k])[..|order|] == order;
  }

  lemma UnpublishingSnoc(b: Bucket, order: seq<string>, k: string)
    requires forall i | 0 <= i < |order| :: order[i] in b
    requires k in b
    ensures Unpublishing(b, order + [k]) == Unpublishing(b, order) + [Unpublish(b[k])]
  {
    assert (order + [k])[..|order|] == order;
  }

  /** Removing the entry of one more stream from the stream map. */
  lemma StreamMapStep(sm: StreamMap, b: Bucket, done: set<string>, k: string)
    requires k in b
    ensures sm - StreamKeysOf(b, done) - {PropKey(b[k].streamId)} == sm - StreamKeysOf(b, done + {k})
  {
    StreamKeysOfStep(b, done, k);
  }

  /** The bookkeeping of one step of an `unsubscribe` pass over a bucket:
      the stream map, the engine calls, the bucket and the visiting order
      all move on by the key `k`. */
  lemma PassStep(bucket: Bucket, k: string, order: seq<string>, done: set<string>, pending: set<string>,
                 streamMap: StreamMap, streamMapAfter: StreamMap, calls: seq<EngineCall>, callsAfter: seq<EngineCall>,
                 before: Bucket, after: Bucket)
    requires Visiting(order, bucket.Keys, pending) && k in pending
    requires streamMapAfter == streamMap - StreamKeysOf(bucket, done) - {PropKey(bucket[k].streamId)}
    requires callsAfter == calls + Unsubscribing(bucket, order) + [Unsubscribe(bucket[k])]
    requires BucketKeyed(bucket) ==> before == Only(bucket, pending) && after == before - {k}
    ensures Visiting(order + [k], bucket.Keys, pending - {k})
    ensures streamMapAfter == streamMap - StreamKeysOf(bucket, done + {k})
    ensures callsAfter == calls + Unsubscribing(bucket, order + [k])
    ensures BucketKeyed(bucket) ==> after == Only(bucket, pending - {k})
  {
    StreamMapStep(streamMap, bucket, done, k);
    UnsubscribingSnoc(bucket, order, k);
    if BucketKeyed(bucket) {
      OnlyStep(bucket, pending, k);
    }
    VisitingStep(order, bucket.Keys, pending, k);
  }

  /** 'startCall' is announced, with the call data, only when every initial
      subscription resolved. */
  function StartCallEvents(outcomes: seq<Settlement<()>>, pubSub: PubSub, publisher: Publisher): (r: seq<Event<Payload>>)
    ensures r != [] <==> PromiseAll(outcomes).Resolved?
    ensures r != [] ==> r == [Event("startCall", WithPublisher(CallData(pubSub, publisher)))]
  {
    if PromiseAll(outcomes).Resolved? then [Event("startCall", WithPublisher(CallData(pubSub, publisher)))] else []
  }

  /** What the subscriptions of `startCall` read and change besides the
      streams and publishers, which they leave alone: the subscriber
      buckets, the stream map, the calls into the engine, and, in order, the
      promises they settle and the events they announce. */
  datatype Subscriptions = Subscriptions(
    subscribers: Buckets,
    streamMap: StreamMap,
    calls: seq<EngineCall>,
    outcomes: seq<Settlement<()>>,
    events: seq<Event<Payload>>)

  /** Every bucket the state module starts with is there. */
  predicate HasBuckets(publishers: Buckets, subscribers: Buckets)
  {
    && "camera" in publishers && "screen" in publishers
    && "camera" in subscribers && "screen" in subscribers && "sip" in subscribers
  }

  /** How `subscribe(stream)` settles, given the stream map it reads, the
      names of the subscriber buckets and the engine's reply:
      - resolved at once when the stream map already names a truthy id for
        the stream;
      - rejected with the engine's error;
      - never, when the subscriber has no stream, its type names no bucket,
        or the stream's type is '' (which `properCase` cannot handle);
      - resolved otherwise. */
  function SubscribeOutcome(streamMap: StreamMap, kinds: set<string>, stream: Stream, reply: SubscribeReply)
    : (s: Settlement<()>)
    ensures s.Rejected? <==> !Truthy(Read(streamMap, stream.streamId)) && reply.error.Some?
    ensures s.Rejected? ==> s.error == reply.error.value
    ensures s.Hanging? ==> s.thrown == TypeError
    ensures s.Resolved? <==> Truthy(Read(streamMap, stream.streamId)) || Subscribable(kinds, stream, reply)
  {
    if Truthy(Read(streamMap, stream.streamId)) then Resolved(())
    else if reply.error.Some? then Rejected(reply.error.value)
    else if !Subscribable(kinds, stream, reply) then Hanging(TypeError)
    else Resolved(())
  }

  /** The engine's reply is a success whose subscriber the state can file
      and whose stream type has an event suffix. */
  predicate Subscribable(kinds: set<string>, stream: Stream, reply: SubscribeReply)
  {
    && reply.error.None? && reply.subscriber.stream.Some?
    && SubscriberType(reply.subscriber) in kinds && SipDefault(stream.videoType) != ""
  }

  /** One `subscribe(stream)` and its engine callback, from `p`:
      - a stream the stream map already names changes nothing;
      - otherwise the engine is asked to subscribe with the properties of
        the stream's type ('sip' by default);
      - an engine error, or a subscriber that cannot be filed, changes
        nothing more;
      - otherwise the subscriber is filed under its type, its stream is
        mapped to its id, and, when the type has a suffix, the subscription
        events are announced with the state as it now is.
      The promise settles as `SubscribeOutcome` says. */
  function SubscribeStep(p: Subscriptions, streams: map<string, Stream>, publishers: Buckets, settings: Settings,
                         stream: Stream, reply: SubscribeReply): (q: Subscriptions)
    requires HasBuckets(publishers, p.subscribers)
    ensures q.subscribers.Keys == p.subscribers.Keys
    ensures q.outcomes == p.outcomes + [SubscribeOutcome(p.streamMap, p.subscribers.Keys, stream, reply)]
  {
    var kind := SipDefault(stream.videoType);
    var sub := reply.subscriber;
    var outcomes := p.outcomes + [SubscribeOutcome(p.streamMap, p.subscribers.Keys, stream, reply)];
    if Truthy(Read(p.streamMap, stream.streamId)) then p.(outcomes := outcomes)
    else
      var calls := p.calls + [EngineCall.Subscribe(stream, SubscribeProperties(settings, kind))];
      if reply.error.Some? || sub.stream.None? || SubscriberType(sub) !in p.subscribers then
        p.(calls := calls, outcomes := outcomes)
      else
        Filed(p, streams, publishers, kind, sub).(calls := calls, outcomes := outcomes)
  }

  /** The engine callback of a successful subscription: the subscriber is
      filed under its type, its stream is mapped to its id, and, when the
      type `kind` has a suffix, the subscription events are announced with
      the state as it now is. */
  function Filed(p: Subscriptions, streams: map<string, Stream>, publishers: Buckets, kind: string, sub: Subscriber)
    : (q: Subscriptions)
    requires HasBuckets(publishers, p.subscribers)
    requires sub.stream.Some? && SubscriberType(sub) in p.subscribers
    ensures q.subscribers.Keys == p.subscribers.Keys
    ensures q.calls == p.calls && q.outcomes == p.outcomes
  {
    var subscribers := Put(p.subscribers, SubscriberType(sub), PropKey(sub.id), sub);
    var streamMap := p.streamMap[sub.stream.value.id := sub.id];
    var state := Snapshot(streams, streamMap, PubSubOf(publishers, subscribers));
    var events := if kind == "" then [] else SubscribeEvents(Capitalized(kind), kind, sub, state);
    p.(subscribers := subscribers, streamMap := streamMap, events := p.events + events)
  }

  /** A step appends its own outcome and events to those already there. */
  lemma SubscribeStepFrame(p: Subscriptions, streams: map<string, Stream>, publishers: Buckets, settings: Settings,
                           stream: Stream, reply: SubscribeReply)
    requires HasBuckets(publishers, p.subscribers)
    ensures var q := SubscribeStep(p.(outcomes := [], events := []), streams, publishers, settings, stream, reply);
      SubscribeStep(p, streams, publishers, settings, stream, reply)
        == q.(outcomes := p.outcomes + q.outcomes, events := p.events + q.events)
  {
    var q := SubscribeStep(p.(outcomes := [], events := []), streams, publishers, settings, stream, reply);
    assert p.events + q.events == SubscribeStep(p, streams, publishers, settings, stream, reply).events;
  }

  /** `subscribe` on the stream of every key of `order` in turn, each
      answered by the engine's reply for that key. */
  function SubscribeAll(p: Subscriptions, streams: map<string, Stream>, publishers: Buckets, settings: Settings,
                        order: seq<string>, replies: string -> SubscribeReply): (q: Subscriptions)
    requires HasBuckets(publishers, p.subscribers)
    requires forall i | 0 <= i < |order| :: order[i] in streams
    ensures q.subscribers.Keys == p.subscribers.Keys
    ensures |q.outcomes| == |p.outcomes| + |order|
    decreases |order|
  {
    if order == [] then p
    else
      var k := order[|order| - 1];
      SubscribeStep(SubscribeAll(p, streams, publishers, settings, order[..|order| - 1], replies),
                    streams, publishers, settings, streams[k], replies(k))
  }

  lemma SubscribeAllSnoc(p: Subscriptions, streams: map<string, Stream>, publishers: Buckets, settings: Settings,
                         order: seq<string>, k: string, replies: string -> SubscribeReply)
    requires HasBuckets(publishers, p.subscribers)
    requires forall i | 0 <= i < |order| :: order[i] in streams
    requires k in streams
    ensures SubscribeAll(p, streams, publishers, settings, order + [k], replies)
         == SubscribeStep(SubscribeAll(p, streams, publishers, settings, order, replies),
                          streams, publishers, settings, streams[k], replies(k))
  {
    assert (order + [k])[..|order|] == order;
  }

  /** The last subscription of `order` adds its own outcome after the
      outcomes of the ones before it. */
  lemma SubscribeAllLast(p: Subscriptions, streams: map<string, Stream>, publishers: Buckets, settings: Settings,
                         order: seq<string>, replies: string -> SubscribeReply)
    requires HasBuckets(publishers, p.subscribers)
    requires forall i | 0 <= i < |order| :: order[i] in streams
    requires order != []
    ensures var n := |order| - 1;
            var q := SubscribeAll(p, streams, publishers, settings, order[..n], replies);
            SubscribeAll(p, streams, publishers, settings, order, replies).outcomes
              == q.outcomes + [SubscribeOutcome(q.streamMap, p.subscribers.Keys, streams[order[n]], replies(order[n]))]
  {
  }

  /** The promise of the i-th subscription settles as `SubscribeOutcome`
      says on the stream map the earlier subscriptions left behind. */
  lemma {:induction false} SubscribeAllOutcome(p: Subscriptions, streams: map<string, Stream>, publishers: Buckets,
                                               settings: Settings, order: seq<string>, replies: string -> SubscribeReply, i: nat)
    requires HasBuckets(publishers, p.subscribers)
    requires forall j | 0 <= j < |order| :: order[j] in streams
    requires i < |order|
    ensures SubscribeAll(p, streams, publishers, settings, order, replies).outcomes[|p.outcomes| + i]
         == SubscribeOutcome(SubscribeAll(p, streams, publishers, settings, order[..i], replies).streamMap,
                             p.subscribers.Keys, streams[order[i]], replies(order[i]))
    decreases |order|
  {
    var n := |order| - 1;
    var front := order[..n];
    var q := SubscribeAll(p, streams, publishers, settings, front, replies);
    var r := SubscribeAll(p, streams, publishers, settings, order, replies);
    SubscribeAllLast(p, streams, publishers, settings, order, replies);
    if i < n {
      assert front[..i] == order[..i] && front[i] == order[i];
      SubscribeAllOutcome(p, streams, publishers, settings, front, replies, i);
      assert r.outcomes[|p.outcomes| + i] == q.outcomes[|p.outcomes| + i];
    } else {
      assert front == order[..i];
    }
  }

  /** Each stream, when its turn comes, is already mapped or gets a reply
      that can be filed. */
  predicate AllResolve(p: Subscriptions, streams: map<string, Stream>, publishers: Buckets, settings: Settings,
                       order: seq<string>, replies: string -> SubscribeReply)
    requires HasBuckets(publishers, p.subscribers)
    requires forall i | 0 <= i < |order| :: order[i] in streams
  {
    forall i | 0 <= i < |order| ::
      var before := SubscribeAll(p, streams, publishers, settings, order[..i], replies).streamMap;
      Truthy(Read(before, streams[order[i]].streamId)) || Subscribable(p.subscribers.Keys, streams[order[i]], replies(order[i]))
  }

  /** The initial subscriptions all resolve exactly when every stream is
      already mapped at its turn or answered by a reply that can be filed. */
  lemma SubscribeAllResolves(p: Subscriptions, streams: map<string, Stream>, publishers: Buckets, settings: Settings,
                             order: seq<string>, replies: string -> SubscribeReply)
    requires HasBuckets(publishers, p.subscribers) && p.outcomes == []
    requires forall i | 0 <= i < |order| :: order[i] in streams
    ensures PromiseAll(SubscribeAll(p, streams, publishers, settings, order, replies).outcomes).Resolved?
        <==> AllResolve(p, streams, publishers, settings, order, replies)
  {
    var r := SubscribeAll(p, streams, publishers, settings, order, replies);
    forall i | 0 <= i < |order|
      ensures r.outcomes[i] == SubscribeOutcome(SubscribeAll(p, streams, publishers, settings, order[..i], replies).streamMap,
                                                p.subscribers.Keys, streams[order[i]], replies(order[i]))
    {
      SubscribeAllOutcome(p, streams, publishers, settings, order, replies, i);
    }
  }

  /** Replies that all succeed with subscribers the state can file resolve
      every initial subscription, whatever the order and the stream map. */
  lemma SubscribableRepliesResolve(p: Subscriptions, streams: map<string, Stream>, publishers: Buckets, settings: Settings,
                               order: seq<string>, replies: string -> SubscribeReply)
    requires HasBuckets(publishers, p.subscribers) && p.outcomes == []
    requires forall i | 0 <= i < |order| :: order[i] in streams
    requires forall k | k in streams :: Subscribable(p.subscribers.Keys, streams[k], replies(k))
    ensures PromiseAll(SubscribeAll(p, streams, publishers, settings, order, replies).outcomes).Resolved?
  {
    SubscribeAllResolves(p, streams, publishers, settings, order, replies);
  }

  /** A stream that nobody has subscribed to yet, answered by an error,
      rejects the initial subscriptions when it comes first. */
  lemma FirstErrorRejects(p: Subscriptions, streams: map<string, Stream>, publishers: Buckets, settings: Settings,
                          order: seq<string>, replies: string -> SubscribeReply)
    requires HasBuckets(publishers, p.subscribers) && p.outcomes == []
    requires forall i | 0 <= i < |order| :: order[i] in streams
    requires order != [] && !Truthy(Read(p.streamMap, streams[order[0]].streamId)) && replies(order[0]).error.Some?
    ensures PromiseAll(SubscribeAll(p, streams, publishers, settings, order, replies).outcomes).Rejected?
  {
    SubscribeAllOutcome(p, streams, publishers, settings, order, replies, 0);
    assert order[..0] == [];
    assert SubscribeAll(p, streams, publishers, settings, order, replies).outcomes[0].Rejected?;
  }

  /** What `initialSubscriptions` amounts to, from `start` to `end`: with
      auto-subscription on, `subscribe` for every stream in some order of
      the keys; with it off, a single resolved promise and nothing else. */
  predicate InitiallySubscribed(settings: Settings, streams: map<string, Stream>, publishers: Buckets,
                                start: Subscriptions, order: seq<string>, replies: string -> SubscribeReply,
                                end: Subscriptions)
  {
    && HasBuckets(publishers, start.subscribers) && start.outcomes == [] && start.events == []
    && if settings.autoSubscribe then
         && Enumerates(order, streams.Keys)
         && end == SubscribeAll(start, streams, publishers, settings, order, replies)
       else
         end == start.(outcomes := [Resolved(())])
  }

  /** The call becomes active exactly when the initial subscriptions all
      resolve: always with auto-subscription off, otherwise exactly when
      `AllResolve` holds. */
  lemma InitiallySubscribedResolves(settings: Settings, streams: map<string, Stream>, publishers: Buckets,
                                    start: Subscriptions, order: seq<string>, replies: string -> SubscribeReply,
                                    end: Subscriptions)
    requires InitiallySubscribed(settings, streams, publishers, start, order, replies, end)
    ensures PromiseAll(end.outcomes).Resolved? <==>
      !settings.autoSubscribe || AllResolve(start, streams, publishers, settings, order, replies)
  {
    if settings.autoSubscribe {
      SubscribeAllResolves(start, streams, publishers, settings, order, replies);
    } else {
      assert end.outcomes == [Resolved(())];
    }
  }

  /** What `endCall` does to the state (`before` to `after`) and to the
      engine (`calls` to `callsAfter`): every camera and screen publisher is
      unpublished and every camera and screen subscriber unsubscribed, in the
      orders given; the SIP subscribers stay; the buckets end empty when their
      entries are stored under their own ids; the stream map loses the entries
      of all those handles. */
  predicate CallCleared(publishers: Buckets, subscribers: Buckets, streamMap: StreamMap, calls: seq<EngineCall>,
                        publishersAfter: Buckets, subscribersAfter: Buckets, streamMapAfter: StreamMap,
                        callsAfter: seq<EngineCall>,
                        cameraPublishers: seq<string>, screenPublishers: seq<string>,
                        cameraSubscribers: seq<string>, screenSubscribers: seq<string>)
  {
    && "camera" in publishers && "screen" in publishers
    && "camera" in subscribers && "screen" in subscribers && "sip" in subscribers
    && subscribersAfter.Keys == subscribers.Keys
    && subscribersAfter["sip"] == subscribers["sip"]
    && (BucketKeyed(subscribers["camera"]) ==> subscribersAfter["camera"] == map[])
    && (BucketKeyed(subscribers["screen"]) ==> subscribersAfter["screen"] == map[])
    && (Keyed(publishers) ==> publishersAfter == map["camera" := map[], "screen" := map[]])
    && streamMapAfter == streamMap
      - StreamKeysOf(subscribers["camera"], subscribers["camera"].Keys)
      - StreamKeysOf(subscribers["screen"], subscribers["screen"].Keys)
      - StreamKeysOf(publishers["camera"], publishers["camera"].Keys)
      - StreamKeysOf(publishers["screen"], publishers["screen"].Keys)
    && Enumerates(cameraPublishers, publishers["camera"].Keys)
    && Enumerates(screenPublishers, publishers["screen"].Keys)
    && Enumerates(cameraSubscribers, subscribers["camera"].Keys)
    && Enumerates(screenSubscribers, subscribers["screen"].Keys)
    && callsAfter == calls
      + Unpublishing(publishers["camera"], cameraPublishers) + Unpublishing(publishers["screen"], screenPublishers)
      + Unsubscribing(subscribers["camera"], cameraSubscribers) + Unsubscribing(subscribers["screen"], screenSubscribers)
  }

  /** The listeners communication registers on the core's bus. */
  const StreamCreatedListener := Callback(0)
  const StreamDestroyedListener := Callback(1)

  class Coordinator {
    /** The state module, the core's bus (`accPack`) and the engine session. */
    const store: Store
    const bus: Bus<Payload>
    const session: Session
    /** `validateOptions` has stored `accPack` and the settings. */
    var initialised: bool
    var settings: Settings
    var active: bool

    predicate Valid()
      reads this, store, bus
    {
      store.Valid() && bus.Valid() && (active ==> initialised)
    }

    /** The module as loaded: nothing set, no call active. */
    constructor (store: Store, bus: Bus<Payload>, session: Session)
      requires store.Valid() && bus.Valid()
      ensures Valid() && this.store == store && this.bus == bus && this.session == session
      ensures !initialised && !active && settings == Unset
    {
      this.store := store;
      this.bus := bus;
      this.session := session;
      initialised := false;
      settings := Unset;
      active := false;
    }

    /** `init`: validate the options (a failure rejects the returned promise)
        and listen for the core's stream events. */
    method Init(options: Options) returns (r: Settlement<()>)
      requires Valid()
      modifies this, bus
      ensures Valid() && active == old(active)
      ensures ValidateOptions(options).Err? ==>
        && r == Rejected(ValidateOptions(options).error)
        && initialised == old(initialised) && settings == old(settings)
        && bus.State() == old(bus.State())
      ensures ValidateOptions(options).Ok? ==>
        && r == Resolved(())
        && initialised && settings == ValidateOptions(options).value
        && bus.listeners == OnName(OnName(old(bus.listeners), "streamCreated", StreamCreatedListener),
                                   "streamDestroyed", StreamDestroyedListener)
        && bus.calls == old(bus.calls) && bus.triggered == old(bus.triggered)
    {
      var validated := ValidateOptions(options);
      if validated.Err? {
        return Rejected(validated.error);
      }
      settings := validated.value;
      initialised := true;
      bus.On("streamCreated", StreamCreatedListener);
      bus.On("streamDestroyed", StreamDestroyedListener);
      r := Resolved(());
    }

    /** What `subscribe(stream)` does, given the engine's reply: the step
        `SubscribeStep` describes, on the state as it was, with the events
        announced on the bus. */
    twostate predicate Subscribed(stream: Stream, reply: SubscribeReply, new s: Settlement<()>, new events: seq<Event<Payload>>)
      reads this, store, bus, session
    {
      && HasBuckets(old(store.publishers), old(store.subscribers))
      && store.streams == old(store.streams) && store.publishers == old(store.publishers)
      && bus.State() == TriggeringAll(old(bus.State()), events)
      && Subscriptions(store.subscribers, store.streamMap, session.calls, [s], events)
         == SubscribeStep(Subscriptions(old(store.subscribers), old(store.streamMap), old(session.calls), [], []),
                          old(store.streams), old(store.publishers), settings, stream, reply)
    }

    /** `subscribe(stream)`. */
    method Subscribe(stream: Stream, reply: SubscribeReply) returns (s: Settlement<()>, ghost events: seq<Event<Payload>>)
      requires Valid() && initialised
      modifies store, bus, session
      ensures Valid()
      ensures Subscribed(stream, reply, s, events)
      ensures forall e | e in events :: e.name != "startCall"
    {
      ghost var expected := SubscribeStep(Subscriptions(store.subscribers, store.streamMap, session.calls, [], []),
                                          store.streams, store.publishers, settings, stream, reply);
      events := [];
      var streamMap := store.GetStreamMap();
      if Truthy(Read(streamMap, stream.streamId)) {
        return Resolved(()), events;
      }
      var kind := SipDefault(stream.videoType);
      session.Record(EngineCall.Subscribe(stream, SubscribeProperties(settings, kind)));
      if reply.error.Some? {
        return Rejected(reply.error.value), events;
      }
      var sub := reply.subscriber;
      var added := store.AddSubscriber(sub);
      if added.Fail? {
        return Hanging(added.error), events;
      }
      s, events := AnnounceSubscription(kind, sub);
      assert store.All() == Snapshot(store.streams, store.streamMap, PubSubOf(store.publishers, store.subscribers));
    }

    /** The end of a successful subscription's callback: 'subscribeTo' with
        the proper-cased type, the subscriber and the whole state, then the
        legacy screen event. A type of '' cannot be proper-cased, and the
        throw leaves the promise unsettled. */
    method AnnounceSubscription(kind: string, sub: Subscriber) returns (s: Settlement<()>, ghost events: seq<Event<Payload>>)
      requires store.Valid() && bus.Valid()
      modifies bus
      ensures bus.Valid()
      ensures events == if kind == "" then [] else SubscribeEvents(Capitalized(kind), kind, sub, store.All())
      ensures s == if kind == "" then Hanging(TypeError) else Resolved(())
      ensures bus.State() == TriggeringAll(old(bus.State()), events)
      ensures forall e | e in events :: e.name != "startCall"
    {
      events := [];
      var suffix := ProperCase(kind);
      if suffix.Err? {
        return Hanging(suffix.error), events;
      }
      ghost var before := bus.State();
      var state := store.All();
      var event := Event("subscribeTo" + suffix.value, WithState(sub, state));
      bus.TriggerEvent(event.name, event.data);
      TriggeringOne(before, event);
      events := [event];
      if kind == "screen" {
        var legacy := Event("startViewingSharedScreen", SubscriberData(sub));
        bus.TriggerEvent(legacy.name, legacy.data);
        TriggeringAllSnoc(before, events, legacy);
        events := events + [legacy];
      }
      assert events == SubscribeEvents(Capitalized(kind), kind, sub, state);
      SubscribeEventsAreNotStartCall(suffix.value, kind, sub, state);
      s := Resolved(());
    }

    /** `unsubscribe(subscriber)`, with the bucket named as `addSubscriber`
        names it (see `UnsubscribeKindAsWritten` for the code as written):
        remove the subscriber from the state, then tell the engine. A
        subscriber whose type names no bucket makes the removal throw, which
        rejects the promise before the engine is told. Before `init` there
        is no session to tell: the removal stands and the promise rejects. */
    method Unsubscribe(subscriber: Subscriber) returns (s: Settlement<()>)
      requires Valid()
      modifies store, session
      ensures Valid()
      ensures store.streams == old(store.streams) && store.publishers == old(store.publishers)
      ensures s.Rejected? <==> UnsubscribeKind(subscriber) !in old(store.subscribers) || !initialised
      ensures !s.Hanging?
      ensures s.Rejected? ==> s.error == TypeError && session.calls == old(session.calls)
      ensures UnsubscribeKind(subscriber) !in old(store.subscribers) ==>
        store.subscribers == old(store.subscribers) && store.streamMap == old(store.streamMap)
      ensures UnsubscribeKind(subscriber) in old(store.subscribers) ==>
        && store.subscribers == Drop(old(store.subscribers), UnsubscribeKind(subscriber),
                                     PropKey(Or(subscriber.id, Read(old(store.streamMap), PropKey(subscriber.streamId)))))
        && store.streamMap == old(store.streamMap) - {PropKey(subscriber.streamId)}
      ensures s.Resolved? ==> session.calls == old(session.calls) + [EngineCall.Unsubscribe(subscriber)]
    {
      var kind := UnsubscribeKind(subscriber);
      var removed := store.RemoveSubscriber(kind, subscriber);
      if removed.Fail? {
        return Rejected(removed.error);
      }
      if !initialised {
        return Rejected(TypeError);
      }
      session.Record(EngineCall.Unsubscribe(subscriber));
      s := Resolved(());
    }

    /** The `streamCreated` listener: subscribe only while a call is active
        and auto-subscription is on. */
    method OnStreamCreated(stream: Stream, reply: SubscribeReply) returns (s: Option<Settlement<()>>, ghost events: seq<Event<Payload>>)
      requires Valid()
      modifies store, bus, session
      ensures Valid()
      ensures s.Some? <==> active && settings.autoSubscribe
      ensures s.None? ==>
        && events == [] && session.calls == old(session.calls) && bus.State() == old(bus.State())
        && store.streams == old(store.streams) && store.streamMap == old(store.streamMap)
        && store.publishers == old(store.publishers) && store.subscribers == old(store.subscribers)
      ensures s.Some? ==> Subscribed(stream, reply, s.value, events)
    {
      events := [];
      if active && settings.autoSubscribe {
        var subscribed;
        subscribed, events := Subscribe(stream, reply);
        s := Some(subscribed);
      } else {
        s := None;
      }
    }

    /** The `streamDestroyed` listener: remove the stream from the state, then
        announce it. A type with no bucket makes the removal throw, and nothing
        is announced. */
    method OnStreamDestroyed(stream: Stream) returns (r: Outcome)
      requires Valid() && initialised
      modifies store, bus
      ensures Valid()
      ensures store.streamMap == old(store.streamMap) - {stream.id}
      ensures store.publishers == old(store.publishers)
      ensures r.Fail? <==> SipDefault(stream.videoType) !in old(store.subscribers)
      ensures r.Fail? ==>
        && r.error == TypeError && bus.State() == old(bus.State())
        && store.streams == old(store.streams) && store.subscribers == old(store.subscribers)
      ensures r.Done? ==>
        && store.streams == old(store.streams) - {stream.id}
        && store.subscribers == Drop(old(store.subscribers), SipDefault(stream.videoType),
                                     PropKey(Read(old(store.streamMap), stream.id)))
      ensures r.Done? ==>
        bus.State() == TriggeringAll(old(bus.State()), UnsubscribeEvents(Capitalized(SipDefault(stream.videoType)),
                                                                         SipDefault(stream.videoType), store.GetPubSub()))
    {
      r := store.RemoveStream(stream);
      if r.Fail? {
        return;
      }
      Announce(SipDefault(stream.videoType), store.GetPubSub());
    }

    /** The events `streamDestroyed` ends with: the legacy screen event, then
        'unsubscribeFrom' with the type's suffix and the pub/sub counts. */
    method Announce(kind: string, pubSub: PubSub)
      requires bus.Valid() && kind != ""
      modifies bus
      ensures bus.Valid()
      ensures bus.State() == TriggeringAll(old(bus.State()), UnsubscribeEvents(Capitalized(kind), kind, pubSub))
    {
      var last := Event("unsubscribeFrom" + Capitalized(kind), Counts(pubSub));
      ghost var before := bus.State();
      if kind == "screen" {
        var first := Event("endViewingSharedScreen", NoData);
        TriggeringTwo(before, first, last);
        bus.TriggerEvent(first.name, first.data);
        bus.TriggerEvent(last.name, last.data);
      } else {
        TriggeringOne(before, last);
        bus.TriggerEvent(last.name, last.data);
      }
    }

    /** The initial subscriptions of `startCall`: `subscribe` for every stream
        of the state as it was when they start, in the order `order` visits
        the stream ids, each answered by the engine's reply for that id. */
    method SubscribeToStreams(replies: string -> SubscribeReply)
      returns (outcomes: seq<Settlement<()>>, ghost emitted: seq<Event<Payload>>, ghost order: seq<string>)
      requires Valid() && initialised
      modifies store, bus, session
      ensures Valid()
      ensures store.streams == old(store.streams) && store.publishers == old(store.publishers)
      ensures Enumerates(order, old(store.streams).Keys)
      ensures Subscriptions(store.subscribers, store.streamMap, session.calls, outcomes, emitted)
           == SubscribeAll(Subscriptions(old(store.subscribers), old(store.streamMap), old(session.calls), [], []),
                           old(store.streams), old(store.publishers), settings, order, replies)
      ensures bus.State() == TriggeringAll(old(bus.State()), emitted)
      ensures forall e | e in emitted :: e.name != "startCall"
    {
      var streams := store.GetStreams();
      ghost var start := Subscriptions(store.subscribers, store.streamMap, session.calls, [], []);
      var pending := streams.Keys;
      outcomes, emitted, order := [], [], [];
      while pending != {}
        invariant Visiting(order, streams.Keys, pending)
        invariant Valid() && store.streams == streams && store.publishers == old(store.publishers)
        invariant Subscriptions(store.subscribers, store.streamMap, session.calls, outcomes, emitted)
               == SubscribeAll(start, streams, old(store.publishers), settings, order, replies)
        invariant bus.State() == TriggeringAll(old(bus.State()), emitted)
        invariant forall e | e in emitted :: e.name != "startCall"
        decreases pending
      {
        var id :| id in pending;
        ghost var before := Subscriptions(store.subscribers, store.streamMap, session.calls, outcomes, emitted);
        var outcome, events := Subscribe(streams[id], replies(id));
        TriggeringAllAppend(old(bus.State()), emitted, events);
        SubscribeStepFrame(before, streams, old(store.publishers), settings, streams[id], replies(id));
        SubscribeAllSnoc(start, streams, old(store.publishers), settings, order, id, replies);
        VisitingStep(order, streams.Keys, pending, id);
        outcomes, emitted, order := outcomes + [outcome], emitted + events, order + [id];
        pending := pending - {id};
      }
      VisitingDone(order, streams.Keys);
    }

    /** The subscriptions `startCall` waits for: one per stream with
        auto-subscription on, a single resolved one otherwise. */
    method InitialSubscriptions(replies: string -> SubscribeReply)
      returns (outcomes: seq<Settlement<()>>, ghost emitted: seq<Event<Payload>>, ghost order: seq<string>)
      requires Valid() && initialised
      modifies store, bus, session
      ensures Valid()
      ensures store.streams == old(store.streams) && store.publishers == old(store.publishers)
      ensures InitiallySubscribed(settings, old(store.streams), old(store.publishers),
                                  Subscriptions(old(store.subscribers), old(store.streamMap), old(session.calls), [], []),
                                  order, replies, Subscriptions(store.subscribers, store.streamMap, session.calls, outcomes, emitted))
      ensures forall e | e in emitted :: e.name != "startCall"
      ensures bus.State() == TriggeringAll(old(bus.State()), emitted)
    {
      if settings.autoSubscribe {
        outcomes, emitted, order := SubscribeToStreams(replies);
      } else {
        outcomes, emitted, order := [Resolved(())], [], [];
      }
    }

    /** How `startCall` settles once its subscriptions have: 'startCall' is
        announced and the call marked active only when they all resolved. */
    method Settle(outcomes: seq<Settlement<()>>, publisher: Publisher) returns (s: Settlement<CallData>)
      requires Valid() && initialised
      modifies this, bus
      ensures Valid() && initialised && settings == old(settings)
      ensures bus.State() == TriggeringAll(old(bus.State()), StartCallEvents(outcomes, store.GetPubSub(), publisher))
      ensures PromiseAll(outcomes).Resolved? ==> s == Resolved(CallData(store.GetPubSub(), publisher)) && active
      ensures PromiseAll(outcomes).Rejected? ==> s == Resolved(CallData(store.GetPubSub(), publisher)) && active == old(active)
      ensures PromiseAll(outcomes).Hanging? ==> s == Hanging(PromiseAll(outcomes).thrown) && active == old(active)
    {
      var all := PromiseAll(outcomes);
      var data := CallData(store.GetPubSub(), publisher);
      if all.Resolved? {
        bus.TriggerEvent("startCall", WithPublisher(data));
        TriggeringOne(old(bus.State()), Event("startCall", WithPublisher(data)));
        active := true;
        s := Resolved(data);
      } else {
        s := if all.Rejected? then Resolved(data) else Hanging(all.thrown);
      }
    }

    /** The part of `startCall` after the engine has published the camera
        publisher: add it to the state, make the initial subscriptions, from
        the state with the publisher added, and settle as they do. */
    method JoinCall(publisher: Publisher, replies: string -> SubscribeReply)
      returns (s: Settlement<CallData>, ghost outcomes: seq<Settlement<()>>, ghost emitted: seq<Event<Payload>>,
               ghost order: seq<string>)
      requires Valid() && initialised
      modifies this, store, bus, session
      ensures Valid() && initialised && settings == old(settings)
      ensures store.streams == old(store.streams)
      ensures store.publishers == Put(old(store.publishers), "camera", PropKey(publisher.id), publisher)
      ensures InitiallySubscribed(settings, old(store.streams), store.publishers,
                                  Subscriptions(old(store.subscribers),
                                                old(store.streamMap)[PropKey(publisher.streamId) := publisher.id],
                                                old(session.calls), [], []),
                                  order, replies, Subscriptions(store.subscribers, store.streamMap, session.calls, outcomes, emitted))
      ensures forall e | e in emitted :: e.name != "startCall"
      ensures bus.State() == TriggeringAll(old(bus.State()), emitted + StartCallEvents(outcomes, store.GetPubSub(), publisher))
      ensures PromiseAll(outcomes).Resolved? ==> s == Resolved(CallData(store.GetPubSub(), publisher)) && active
      ensures PromiseAll(outcomes).Rejected? ==> s == Resolved(CallData(store.GetPubSub(), publisher)) && active == old(active)
      ensures PromiseAll(outcomes).Hanging? ==> s == Hanging(PromiseAll(outcomes).thrown) && active == old(active)
    {
      var added := store.AddPublisher("camera", publisher);
      var results;
      results, emitted, order := InitialSubscriptions(replies);
      outcomes := results;
      s := Settle(results, publisher);
      TriggeringAllAppend(old(bus.State()), emitted, StartCallEvents(outcomes, store.GetPubSub(), publisher));
    }

    /** The `session.publish` step of `publish` and what follows it: a
        publisher the engine refuses rejects the call; one it accepts joins it. */
    method PublishCamera(publisher: Publisher, publishError: Option<Error>, replies: string -> SubscribeReply)
      returns (s: Settlement<CallData>, ghost outcomes: seq<Settlement<()>>, ghost emitted: seq<Event<Payload>>,
               ghost order: seq<string>)
      requires Valid() && initialised
      modifies this, store, bus, session
      ensures Valid() && initialised && settings == old(settings)
      ensures store.streams == old(store.streams)
      ensures publishError.Some? ==>
        && s == Rejected(publishError.value)
        && active == old(active)
        && session.calls == old(session.calls) + [Publish(publisher)]
        && store.streamMap == old(store.streamMap)
        && store.publishers == old(store.publishers) && store.subscribers == old(store.subscribers)
        && bus.State() == old(bus.State())
      ensures publishError.None? ==>
        && store.publishers == Put(old(store.publishers), "camera", PropKey(publisher.id), publisher)
        && InitiallySubscribed(settings, old(store.streams), store.publishers,
                               Subscriptions(old(store.subscribers),
                                             old(store.streamMap)[PropKey(publisher.streamId) := publisher.id],
                                             old(session.calls) + [Publish(publisher)], [], []),
                               order, replies, Subscriptions(store.subscribers, store.streamMap, session.calls, outcomes, emitted))
        && (forall e | e in emitted :: e.name != "startCall")
        && bus.State() == TriggeringAll(old(bus.State()), emitted + StartCallEvents(outcomes, store.GetPubSub(), publisher))
        && (PromiseAll(outcomes).Resolved? ==> s == Resolved(CallData(store.GetPubSub(), publisher)) && active)
        && (PromiseAll(outcomes).Rejected? ==> s == Resolved(CallData(store.GetPubSub(), publisher)) && active == old(active))
        && (PromiseAll(outcomes).Hanging? ==> s == Hanging(PromiseAll(outcomes).thrown) && active == old(active))
    {
      session.Record(Publish(publisher));
      if publishError.Some? {
        return Rejected(publishError.value), [], [], [];
      }
      s, outcomes, emitted, order := JoinCall(publisher, replies);
    }

    /** The `createPublisher` step of `publish`: the engine is asked for a
        publisher; an error it answers with is announced and rejects the call. */
    method CreatePublisher(publisherProperties: Json, init: Result<Publisher>, publishError: Option<Error>,
                           replies: string -> SubscribeReply)
      returns (s: Settlement<CallData>, ghost outcomes: seq<Settlement<()>>, ghost emitted: seq<Event<Payload>>,
               ghost order: seq<string>)
      requires Valid() && initialised
      modifies this, store, bus, session
      ensures Valid() && initialised && settings == old(settings)
      ensures store.streams == old(store.streams)
      ensures init.Err? ==>
        && s == Rejected(init.error)
        && active == old(active)
        && session.calls == old(session.calls) + [InitPublisher(Assign(settings.callProperties, publisherProperties))]
        && store.streamMap == old(store.streamMap)
        && store.publishers == old(store.publishers) && store.subscribers == old(store.subscribers)
        && bus.State() == Triggering(old(bus.State()), Event("error", Text(PublishErrorMessage(init.error))))
      ensures init.Ok? && publishError.Some? ==>
        && s == Rejected(publishError.value)
        && active == old(active)
        && session.calls == old(session.calls) + [InitPublisher(Assign(settings.callProperties, publisherProperties)),
                                                  Publish(init.value)]
        && store.streamMap == old(store.streamMap)
        && store.publishers == old(store.publishers) && store.subscribers == old(store.subscribers)
        && bus.State() == old(bus.State())
      ensures init.Ok? && publishError.None? ==>
        && store.publishers == Put(old(store.publishers), "camera", PropKey(init.value.id), init.value)
        && InitiallySubscribed(settings, old(store.streams), store.publishers,
                               Subscriptions(old(store.subscribers),
                                             old(store.streamMap)[PropKey(init.value.streamId) := init.value.id],
                                             old(session.calls) + [InitPublisher(Assign(settings.callProperties, publisherProperties)),
                                                                   Publish(init.value)], [], []),
                               order, replies, Subscriptions(store.subscribers, store.streamMap, session.calls, outcomes, emitted))
        && (forall e | e in emitted :: e.name != "startCall")
        && bus.State() == TriggeringAll(old(bus.State()), emitted + StartCallEvents(outcomes, store.GetPubSub(), init.value))
        && (PromiseAll(outcomes).Resolved? ==> s == Resolved(CallData(store.GetPubSub(), init.value)) && active)
        && (PromiseAll(outcomes).Rejected? ==> s == Resolved(CallData(store.GetPubSub(), init.value)) && active == old(active))
        && (PromiseAll(outcomes).Hanging? ==> s == Hanging(PromiseAll(outcomes).thrown) && active == old(active))
    {
      session.Record(InitPublisher(Assign(settings.callProperties, publisherProperties)));
      if init.Err? {
        bus.TriggerEvent("error", Text(PublishErrorMessage(init.error)));
        return Rejected(init.error), [], [], [];
      }
      ghost var created := session.calls;
      assert created + [Publish(init.value)]
          == old(session.calls) + [InitPublisher(Assign(settings.callProperties, publisherProperties)), Publish(init.value)];
      s, outcomes, emitted, order := PublishCamera(init.value, publishError, replies);
    }

    /** `startCall(publisherProperties)`, given the engine's answers: the
        publisher `OT.initPublisher` creates or its error, the error of
        `session.publish` if any, and the reply to each initial subscription.
        - With the connection limit reached, an 'error' event and a rejection,
          and nothing else.
        - A publisher that cannot be created: an 'error' event and a
          rejection; one that cannot be published: a rejection only.
        - Otherwise the publisher is added to the state and the streams are
          subscribed to (or not, with auto-subscription off), from `start`.
          Only when every subscription succeeds, that is with
          auto-subscription off or when `AllResolve` holds of the replies, is
          'startCall' announced and the call marked active; when one fails
          the call still resolves, quietly; when one never settles neither
          does the call. */
    method StartCall(publisherProperties: Json, init: Result<Publisher>, publishError: Option<Error>,
                     replies: string -> SubscribeReply)
      returns (s: Settlement<CallData>, ghost outcomes: seq<Settlement<()>>, ghost emitted: seq<Event<Payload>>,
               ghost order: seq<string>, ghost start: Subscriptions)
      requires Valid() && initialised
      modifies this, store, bus, session
      ensures Valid() && initialised && settings == old(settings)
      ensures store.streams == old(store.streams)
      ensures !AbleToJoin(settings.connectionLimit, old(store.streams)) ==>
        && s == Rejected(CoreError(ConnectionLimitMessage, "connectionLimit"))
        && active == old(active) && session.calls == old(session.calls)
        && store.streamMap == old(store.streamMap)
        && store.publishers == old(store.publishers) && store.subscribers == old(store.subscribers)
        && bus.State() == Triggering(old(bus.State()), Event("error", Text(ConnectionLimitMessage)))
      ensures AbleToJoin(settings.connectionLimit, old(store.streams)) && init.Err? ==>
        && s == Rejected(init.error)
        && active == old(active)
        && session.calls == old(session.calls) + [InitPublisher(Assign(settings.callProperties, publisherProperties))]
        && store.streamMap == old(store.streamMap)
        && store.publishers == old(store.publishers) && store.subscribers == old(store.subscribers)
        && bus.State() == Triggering(old(bus.State()), Event("error", Text(PublishErrorMessage(init.error))))
      ensures AbleToJoin(settings.connectionLimit, old(store.streams)) && init.Ok? && publishError.Some? ==>
        && s == Rejected(publishError.value)
        && active == old(active)
        && session.calls == old(session.calls) + [InitPublisher(Assign(settings.callProperties, publisherProperties)),
                                                  Publish(init.value)]
        && store.streamMap == old(store.streamMap)
        && store.publishers == old(store.publishers) && store.subscribers == old(store.subscribers)
        && bus.State() == old(bus.State())
      ensures AbleToJoin(settings.connectionLimit, old(store.streams)) && init.Ok? && publishError.None? ==>
        && store.publishers == Put(old(store.publishers), "camera", PropKey(init.value.id), init.value)
        && start == Subscriptions(old(store.subscribers),
                                  old(store.streamMap)[PropKey(init.value.streamId) := init.value.id],
                                  old(session.calls) + [InitPublisher(Assign(settings.callProperties, publisherProperties)),
                                                        Publish(init.value)], [], [])
        && InitiallySubscribed(settings, old(store.streams), store.publishers, start,
                               order, replies, Subscriptions(store.subscribers, store.streamMap, session.calls, outcomes, emitted))
        && (forall e | e in emitted :: e.name != "startCall")
        && bus.State() == TriggeringAll(old(bus.State()), emitted + StartCallEvents(outcomes, store.GetPubSub(), init.value))
        && (PromiseAll(outcomes).Resolved? <==>
              !settings.autoSubscribe || AllResolve(start, old(store.streams), store.publishers, settings, order, replies))
        && (PromiseAll(outcomes).Resolved? ==> s == Resolved(CallData(store.GetPubSub(), init.value)) && active)
        && (PromiseAll(outcomes).Rejected? ==> s == Resolved(CallData(store.GetPubSub(), init.value)) && active == old(active))
        && (PromiseAll(outcomes).Hanging? ==> s == Hanging(PromiseAll(outcomes).thrown) && active == old(active))
    {
      outcomes, emitted, order := [], [], [];
      start := Subscriptions(map[], map[], [], [], []);
      if !AbleToJoin(settings.connectionLimit, store.GetStreams()) {
        bus.TriggerEvent("error", Text(ConnectionLimitMessage));
        return Rejected(CoreError(ConnectionLimitMessage, "connectionLimit")), outcomes, emitted, order, start;
      }
      if init.Ok? {
        start := Subscriptions(store.subscribers, store.streamMap[PropKey(init.value.streamId) := init.value.id],
                               session.calls + [InitPublisher(Assign(settings.callProperties, publisherProperties)),
                                                Publish(init.value)], [], []);
      }
      s, outcomes, emitted, order := CreatePublisher(publisherProperties, init, publishError, replies);
      if init.Ok? && publishError.None? {
        InitiallySubscribedResolves(settings, old(store.streams), store.publishers, start, order, replies,
                                    Subscriptions(store.subscribers, store.streamMap, session.calls, outcomes, emitted));
      }
    }

    /** `Object.values(publishers[kind]).forEach(unpublish)` in `endCall`:
        the engine is told to unpublish each publisher of the bucket. */
    method UnpublishAll(kind: string) returns (ghost order: seq<string>)
      requires kind in store.publishers
      modifies session
      ensures Enumerates(order, store.publishers[kind].Keys)
      ensures session.calls == old(session.calls) + Unpublishing(store.publishers[kind], order)
    {
      var bucket := store.publishers[kind];
      var pending := bucket.Keys;
      order := [];
      while pending != {}
        invariant Visiting(order, bucket.Keys, pending)
        invariant session.calls == old(session.calls) + Unpublishing(bucket, order)
        decreases pending
      {
        var k :| k in pending;
        session.Record(Unpublish(bucket[k]));
        assert (order + [k])[..|order|] == order;
        VisitingStep(order, bucket.Keys, pending, k);
        order := order + [k];
        pending := pending - {k};
      }
      VisitingDone(order, bucket.Keys);
    }

    /** One `unsubscribe` of that pass, on the subscriber filed under `kind`
        with key `k`: the removal succeeds, and the pass moves on by one key. */
    method UnsubscribeNext(kind: string, bucket: Bucket, k: string, ghost order: seq<string>,
                           ghost done: set<string>, ghost pending: set<string>,
                           ghost streamMap: StreamMap, ghost calls: seq<EngineCall>)
      requires Valid() && initialised && kind in store.subscribers
      requires Visiting(order, bucket.Keys, pending) && k in pending && FiledUnder(bucket[k], kind)
      requires store.streamMap == streamMap - StreamKeysOf(bucket, done)
      requires BucketKeyed(bucket) ==> store.subscribers[kind] == Only(bucket, pending)
      requires session.calls == calls + Unsubscribing(bucket, order)
      modifies store, session
      ensures Valid()
      ensures store.streams == old(store.streams) && store.publishers == old(store.publishers)
      ensures store.subscribers.Keys == old(store.subscribers).Keys
      ensures forall t | t in store.subscribers && t != kind :: store.subscribers[t] == old(store.subscribers)[t]
      ensures Visiting(order + [k], bucket.Keys, pending - {k})
      ensures store.streamMap == streamMap - StreamKeysOf(bucket, done + {k})
      ensures BucketKeyed(bucket) ==> store.subscribers[kind] == Only(bucket, pending - {k})
      ensures session.calls == calls + Unsubscribing(bucket, order + [k])
    {
      ghost var before := store.subscribers[kind];
      var outcome := Unsubscribe(bucket[k]);
      PassStep(bucket, k, order, done, pending, streamMap, store.streamMap, calls, session.calls,
               before, store.subscribers[kind]);
    }

    /** `Object.values(subscribers[kind]).forEach(unsubscribe)` in `endCall`:
        every subscriber of the bucket, as it was when the pass started, is
        unsubscribed. Each names its own bucket, so each removal succeeds. */
    method UnsubscribeAll(kind: string) returns (ghost order: seq<string>)
      requires Valid() && initialised && kind in store.subscribers
      modifies store, session
      ensures Valid()
      ensures store.streams == old(store.streams) && store.publishers == old(store.publishers)
      ensures store.subscribers.Keys == old(store.subscribers).Keys
      ensures forall t | t in store.subscribers && t != kind :: store.subscribers[t] == old(store.subscribers)[t]
      ensures store.streamMap == old(store.streamMap)
        - StreamKeysOf(old(store.subscribers)[kind], old(store.subscribers)[kind].Keys)
      ensures BucketKeyed(old(store.subscribers)[kind]) ==> store.subscribers[kind] == map[]
      ensures Enumerates(order, old(store.subscribers)[kind].Keys)
      ensures session.calls == old(session.calls) + Unsubscribing(old(store.subscribers)[kind], order)
    {
      var bucket := store.subscribers[kind];
      var pending := bucket.Keys;
      ghost var done: set<string> := {};
      order := [];
      while pending != {}
        invariant pending !! done && pending + done == bucket.Keys
        invariant Visiting(order, bucket.Keys, pending)
        invariant Valid() && store.subscribers.Keys == old(store.subscribers).Keys
        invariant store.streams == old(store.streams) && store.publishers == old(store.publishers)
        invariant forall t | t in store.subscribers && t != kind :: store.subscribers[t] == old(store.subscribers)[t]
        invariant store.streamMap == old(store.streamMap) - StreamKeysOf(bucket, done)
        invariant BucketKeyed(bucket) ==> store.subscribers[kind] == Only(bucket, pending)
        invariant session.calls == old(session.calls) + Unsubscribing(bucket, order)
        decreases pending
      {
        var k :| k in pending;
        UnsubscribeNext(kind, bucket, k, order, done, pending, old(store.streamMap), old(session.calls));
        order := order + [k];
        pending := pending - {k};
        done := done + {k};
      }
      VisitingDone(order, bucket.Keys);
      OnlyNone(bucket);
    }

    /** `endCall`: clear the call as `CallCleared` says, leave it and announce
        'endCall'. */
    method EndCall()
      returns (ghost cameraPublishers: seq<string>, ghost screenPublishers: seq<string>,
               ghost cameraSubscribers: seq<string>, ghost screenSubscribers: seq<string>)
      requires Valid() && initialised
      modifies this, store, bus, session
      ensures Valid() && !active && initialised && settings == old(settings)
      ensures store.streams == old(store.streams)
      ensures CallCleared(old(store.publishers), old(store.subscribers), old(store.streamMap), old(session.calls),
                          store.publishers, store.subscribers, store.streamMap, session.calls,
                          cameraPublishers, screenPublishers, cameraSubscribers, screenSubscribers)
      ensures bus.State() == Triggering(old(bus.State()), Event("endCall", NoData))
    {
      cameraPublishers, screenPublishers, cameraSubscribers, screenSubscribers := ClearCall();
      Leave();
    }

    /** The end of `endCall`: the call is no longer active, and 'endCall' is
        announced. */
    method Leave()
      requires Valid()
      modifies this, bus
      ensures Valid() && !active && initialised == old(initialised) && settings == old(settings)
      ensures bus.State() == Triggering(old(bus.State()), Event("endCall", NoData))
    {
      active := false;
      bus.TriggerEvent("endCall", NoData);
    }

    /** What `endCall` does before it leaves the call. */
    method ClearCall()
      returns (ghost cameraPublishers: seq<string>, ghost screenPublishers: seq<string>,
               ghost cameraSubscribers: seq<string>, ghost screenSubscribers: seq<string>)
      requires Valid() && initialised
      modifies store, session
      ensures Valid()
      ensures store.streams == old(store.streams)
      ensures CallCleared(old(store.publishers), old(store.subscribers), old(store.streamMap), old(session.calls),
                          store.publishers, store.subscribers, store.streamMap, session.calls,
                          cameraPublishers, screenPublishers, cameraSubscribers, screenSubscribers)
    {
      ghost var publishers := store.publishers;
      cameraPublishers, screenPublishers := UnpublishEverything();
      cameraSubscribers, screenSubscribers := UnsubscribeEverything();
      assert store.publishers == publishers;
      ghost var subscribers, streamMap := store.subscribers, store.streamMap;
      store.RemoveAllPublishers();
      assert store.subscribers == subscribers;
      assert store.streamMap == streamMap
        - StreamKeysOf(publishers["camera"], publishers["camera"].Keys)
        - StreamKeysOf(publishers["screen"], publishers["screen"].Keys);
    }

    /** The unpublishing half of `endCall`. */
    method UnpublishEverything() returns (ghost camera: seq<string>, ghost screen: seq<string>)
      requires Valid()
      modifies session
      ensures Enumerates(camera, store.publishers["camera"].Keys)
      ensures Enumerates(screen, store.publishers["screen"].Keys)
      ensures session.calls == old(session.calls)
        + Unpublishing(store.publishers["camera"], camera) + Unpublishing(store.publishers["screen"], screen)
    {
      camera := UnpublishAll("camera");
      screen := UnpublishAll("screen");
    }

    /** The unsubscribing half of `endCall`: camera, then screen. */
    method UnsubscribeEverything() returns (ghost camera: seq<string>, ghost screen: seq<string>)
      requires Valid() && initialised
      modifies store, session
      ensures Valid()
      ensures store.streams == old(store.streams) && store.publishers == old(store.publishers)
      ensures store.subscribers.Keys == old(store.subscribers).Keys
      ensures store.subscribers["sip"] == old(store.subscribers)["sip"]
      ensures BucketKeyed(old(store.subscribers)["camera"]) ==> store.subscribers["camera"] == map[]
      ensures BucketKeyed(old(store.subscribers)["screen"]) ==> store.subscribers["screen"] == map[]
      ensures store.streamMap == old(store.streamMap)
        - StreamKeysOf(old(store.subscribers)["camera"], old(store.subscribers)["camera"].Keys)
        - StreamKeysOf(old(store.subscribers)["screen"], old(store.subscribers)["screen"].Keys)
      ensures Enumerates(camera, old(store.subscribers)["camera"].Keys)
      ensures Enumerates(screen, old(store.subscribers)["screen"].Keys)
      ensures session.calls == old(session.calls)
        + Unsubscribing(old(store.subscribers)["camera"], camera)
        + Unsubscribing(old(store.subscribers)["screen"], screen)
    {
      camera := UnsubscribeAll("camera");
      ghost var middle := store.subscribers;
      screen := UnsubscribeAll("screen");
    }

    /** `enableLocalAV(id, source, enable)`: call 'publish' + properCase(source)
        on the camera publisher stored under `id`. An empty source, an id
        with no camera publisher, or a method the publisher lacks throws. */
    method EnableLocalAV(id: string, source: string, enable: bool) returns (r: Outcome)
      requires Valid()
      modifies session
      ensures r.Done? <==>
        LocalAVMethod(source).Ok? && LocalAVMethod(source).value in PublisherAVMethods
        && id in store.publishers["camera"]
      ensures r.Fail? ==> r.error == TypeError && session.calls == old(session.calls)
      ensures r.Done? ==>
        session.calls == old(session.calls) + [PublisherAV(store.publishers["camera"][id], LocalAVMethod(source).value, enable)]
    {
      var avMethod := LocalAVMethod(source);
      if avMethod.Err? {
        return Fail(avMethod.error);
      }
      var publishers := store.GetPubSub().publishers;
      if id !in publishers["camera"] || avMethod.value !in PublisherAVMethods {
        return Fail(TypeError);
      }
      session.Record(PublisherAV(publishers["camera"][id], avMethod.value, enable));
      r := Done;
    }

    /** `enableRemoteAV(subscriberId, source, enable)`: the same on the camera
        subscriber stored under the id. */
    method EnableRemoteAV(subscriberId: string, source: string, enable: bool) returns (r: Outcome)
      requires Valid()
      modifies session
      ensures r.Done? <==>
        RemoteAVMethod(source).Ok? && RemoteAVMethod(source).value in SubscriberAVMethods
        && subscriberId in store.subscribers["camera"]
      ensures r.Fail? ==> r.error == TypeError && session.calls == old(session.calls)
      ensures r.Done? ==>
        session.calls == old(session.calls)
          + [SubscriberAV(store.subscribers["camera"][subscriberId], RemoteAVMethod(source).value, enable)]
    {
      var avMethod := RemoteAVMethod(source);
      if avMethod.Err? {
        return Fail(avMethod.error);
      }
      var subscribers := store.GetPubSub().subscribers;
      if subscriberId !in subscribers["camera"] || avMethod.value !in SubscriberAVMethods {
        return Fail(TypeError);
      }
      session.Record(SubscriberAV(subscribers["camera"][subscriberId], avMethod.value, enable));
      r := Done;
    }
  }
}
