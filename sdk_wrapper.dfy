/**
  The SDK wrapper: one object per session that checks its credentials, keeps
  its own state store in step with the session's stream events, and turns
  the engine's callback-style operations (publish, subscribe, connect,
  signal) into promises, updating the store as each completes.
 */
module SdkWrapper {
  import opened Js
  import opened Util
  import opened Entities
  import opened EventBus
  import opened WrapperState
  import opened Engine
  import opened Credentials
  import Core

  /** `validateCredentials(credentials = {})`: the credentials themselves when
      all three are present, else an error naming the first one missing;
      `null` cannot be read and throws a TypeError. */
  function ValidateCredentials(credentials: Json): (r: Result<Json>)
    ensures r.Ok? <==> Complete(credentials)
    ensures r.Ok? ==> r.value == credentials
    ensures credentials.Null? ==> r == Err(TypeError)
    ensures credentials.Undefined? ==> r == Err(SdkError(MissingText("apiKey"), "invalidParameters"))
    ensures r.Err? && !credentials.Null? ==>
      exists i :: MissingAt(Defaulted(credentials, Obj(map[])), Required, i)
                  && r.error == SdkError(MissingText(Required[i]), "invalidParameters")
  {
    EmptyLacksApiKey(Obj(map[]));
    match FirstMissing(Defaulted(credentials, Obj(map[])), Required)
    case Err(e) => Err(e)
    case Ok(None) => Ok(credentials)
    case Ok(Some(name)) => Err(SdkError(MissingText(name), "invalidParameters"))
  }

  /** The wrapper and the core reject exactly the same credentials, for the
      same missing name; only the prefix of the message differs. */
  lemma SameCredentialCheck(credentials: Json)
    ensures ValidateCredentials(credentials).Ok? <==> Core.ValidateCredentials(credentials).Done?
    ensures ValidateCredentials(credentials).Err? && !credentials.Null? ==>
      exists name :: ValidateCredentials(credentials).error == SdkError(MissingText(name), "invalidParameters")
                     && Core.ValidateCredentials(credentials).error == CoreError(MissingText(name), "invalidParameters")
  {
    EmptyLacksApiKey(Obj(map[]));
    EmptyLacksApiKey(Arr([]));
  }

  /** A value passed where an event name or a listener is expected. */
  datatype Arg = StringArg(s: string) | FunctionArg(callback: Callback) | OtherArg

  /** An object of event-name/listener pairs, in key order. */
  type ListenerObject = seq<(string, Arg)>

  /** The `eventListeners` argument: one such object, or an array of them. */
  datatype ListenerArg = Single(object: ListenerObject) | Several(objects: seq<ListenerObject>)

  /** The pairs `bindListeners` visits, object after object. */
  function Pairs(listeners: ListenerArg): seq<(string, Arg)>
  {
    match listeners
    case Single(o) => o
    case Several(os) => Concat(os)
  }

  function Concat(os: seq<ListenerObject>): seq<(string, Arg)>
  {
    if os == [] then [] else os[0] + Concat(os[1..])
  }

  const ParamsError := "'on' requires a string and a function to create an event listener."

  /** `bindListener`'s check: an event name and a function, or an error. */
  function BindListener(event: Arg, callback: Arg): (r: Result<(string, Callback)>)
    ensures r.Ok? <==> event.StringArg? && callback.FunctionArg?
    ensures r.Ok? ==> r.value.0 == event.s && r.value.1 == callback.callback
    ensures r.Err? ==> r.error == SdkError(ParamsError, "invalidParameters")
  {
    if event.StringArg? && callback.FunctionArg? then Ok((event.s, callback.callback))
    else Err(SdkError(ParamsError, "invalidParameters"))
  }

  /** What binding a list of pairs does: the listeners attached, and the
      error thrown, if any, which ends the binding. */
  datatype Bound = Bound(listened: seq<(string, Callback)>, error: Option<Error>)

  /** `pairs[i]` is the first pair whose value is not a function. */
  predicate FirstNonFunction(pairs: seq<(string, Arg)>, i: int)
  {
    0 <= i < |pairs| && !pairs[i].1.FunctionArg? && forall j | 0 <= j < i :: pairs[j].1.FunctionArg?
  }

  /** Binding the pairs one by one: every pair before the first value that is
      not a function is attached, in order, and that value throws. */
  function Binding(pairs: seq<(string, Arg)>): (r: Bound)
    ensures |r.listened| <= |pairs|
    ensures forall i | 0 <= i < |r.listened| ::
      pairs[i].1.FunctionArg? && r.listened[i] == (pairs[i].0, pairs[i].1.callback)
    ensures r.error.None? <==> forall i | 0 <= i < |pairs| :: pairs[i].1.FunctionArg?
    ensures r.error.None? ==> |r.listened| == |pairs|
    ensures r.error.Some? ==>
      FirstNonFunction(pairs, |r.listened|) && r.error.value == SdkError(ParamsError, "invalidParameters")
    decreases |pairs|
  {
    if pairs == [] then Bound([], None)
    else match BindListener(StringArg(pairs[0].0), pairs[0].1)
      case Err(e) => Bound([], Some(e))
      case Ok(pair) =>
        var rest := Binding(pairs[1..]);
        assert forall i | 1 <= i < |pairs| :: pairs[i] == pairs[1..][i - 1];
        Bound([pair] + rest.listened, rest.error)
  }

  /** The engine calls that attach the listeners to `target`, in order. */
  function ListenCalls(target: ListenTarget, listened: seq<(string, Callback)>): (r: seq<EngineCall>)
    ensures |r| == |listened|
    ensures forall i | 0 <= i < |r| :: r[i] == Listen(target, listened[i].0, listened[i].1)
  {
    seq(|listened|, i requires 0 <= i < |listened| => Listen(target, listened[i].0, listened[i].1))
  }

  /** Attaching one more listener appends one more call to the log. */
  lemma ListenCallsStep(log: seq<EngineCall>, target: ListenTarget, listened: seq<(string, Callback)>, i: nat)
    requires i < |listened|
    ensures log + ListenCalls(target, listened[..i + 1])
            == (log + ListenCalls(target, listened[..i])) + [Listen(target, listened[i].0, listened[i].1)]
  {
  }

  /** The arguments of `on(...)`: one object (or array), one `null` (whose
      type is also 'object'), an event name and a listener, or anything else. */
  datatype OnArgs = OnObject(listeners: ListenerArg) | OnNull | OnPair(event: Arg, callback: Arg) | OnOther

  /** The subscriber the toggles act on: the one the stream map names for the
      stream, looked up among the camera subscribers and then the screen ones. */
  function FindSubscriber(streamMap: StreamMap, subscribers: Buckets, streamId: string): (r: Option<Subscriber>)
    requires "camera" in subscribers && "screen" in subscribers
    ensures r.Some? <==> PropKey(Read(streamMap, streamId)) in subscribers["camera"].Keys + subscribers["screen"].Keys
    ensures r.Some? ==> r.value in subscribers["camera"].Values + subscribers["screen"].Values
  {
    var key := PropKey(Read(streamMap, streamId));
    if key in subscribers["camera"] then Some(subscribers["camera"][key])
    else if key in subscribers["screen"] then Some(subscribers["screen"][key])
    else None
  }

  /** A subscriber just added is the one found for its stream, unless it is a
      screen subscriber whose id a camera subscriber also uses. */
  lemma FindsAddedSubscriber(streamMap: StreamMap, subscribers: Buckets, subscriber: Subscriber)
    requires "camera" in subscribers && "screen" in subscribers
    requires SubscriberBucket(subscriber) == Ok("camera")
          || (SubscriberBucket(subscriber) == Ok("screen") && PropKey(subscriber.id) !in subscribers["camera"])
    ensures FindSubscriber(streamMap[subscriber.stream.value.id := subscriber.id],
                           Put(subscribers, SubscriberBucket(subscriber).value, PropKey(subscriber.id), subscriber),
                           subscriber.stream.value.id)
            == Some(subscriber)
  {
    assert Read(streamMap[subscriber.stream.value.id := subscriber.id], subscriber.stream.value.id) == subscriber.id;
  }

  /** The subscriber method `enableSubscriberAudio` (source 'audio') and
      `enableSubscriberVideo` (source 'video') call, as written: each calls
      the other's. */
  function SubscriberMethodAsWritten(source: string): (m: string)
    requires source == "audio" || source == "video"
    ensures m in {"subscribeToAudio", "subscribeToVideo"}
  {
    if source == "audio" then "subscribeToVideo" else "subscribeToAudio"
  }

  /** The subscriber method named after the source, as the publisher toggles
      and the communication layer's `enableRemoteAV` name theirs. */
  function SubscriberMethod(source: string): (m: string)
    requires source == "audio" || source == "video"
    ensures m == "subscribeTo" + Capitalized(source)
  {
    ProperCaseOfTypes();
    if source == "audio" then "subscribeToAudio" else "subscribeToVideo"
  }

  /** As written, turning a subscriber's audio off turns its video off, and
      the other way round. */
  lemma SubscriberMethodsSwapped(source: string)
    requires source == "audio" || source == "video"
    ensures SubscriberMethodAsWritten(source) != SubscriberMethod(source)
    ensures SubscriberMethodAsWritten(source) == SubscriberMethod(if source == "audio" then "video" else "audio")
  {
  }

  /** The object `signal` hands to the engine: the type and serialised data
      always, the recipient only when it is truthy. */
  function SdkSignal(signalType: Json, data: Json, to: Json): (s: Signal)
    ensures s.signalType == Some(signalType) && s.data == Some(Stringify(data))
    ensures s.to.Some? <==> JsonTruthy(to)
    ensures s.to.Some? ==> s.to.value == to
  {
    Signal(Some(signalType), Some(Stringify(data)), if JsonTruthy(to) then Some(to) else None)
  }

  /** The wrapper sends the same signal as the core whenever the type and the
      data are truthy; the core drops them when they are not. */
  lemma SignalsAgree(signalType: Json, data: Json, to: Json)
    ensures JsonTruthy(signalType) && JsonTruthy(data) ==> SdkSignal(signalType, data, to) == Core.SignalObject(signalType, data, to)
    ensures !JsonTruthy(data) ==> SdkSignal(signalType, data, to) != Core.SignalObject(signalType, data, to)
  {
  }

  /** The bucket a subscriber is filed in exists. */
  predicate Fileable(subscriber: Subscriber, subscribers: Buckets)
  {
    SubscriberBucket(subscriber).Ok? && SubscriberBucket(subscriber).value in subscribers
  }

  /** The bucket `publishPreview` files a published publisher in: its
      stream's type. */
  predicate PreviewFiles(publisher: Publisher, publishers: Buckets)
  {
    publisher.stream.Some? && PropKey(publisher.stream.value.videoType) in publishers
  }

  /** The publishers after `publishPreview`'s callback. */
  function Previewed(publisher: Publisher, publishers: Buckets): (r: Buckets)
    ensures PreviewFiles(publisher, publishers) ==>
      && r.Keys == publishers.Keys
      && PropKey(publisher.id) in r[PropKey(publisher.stream.value.videoType)]
      && r[PropKey(publisher.stream.value.videoType)][PropKey(publisher.id)] == publisher
    ensures !PreviewFiles(publisher, publishers) ==> r == publishers
  {
    if PreviewFiles(publisher, publishers)
    then Put(publishers, PropKey(publisher.stream.value.videoType), PropKey(publisher.id), publisher)
    else publishers
  }

  /** The stream map after `publishPreview`'s callback: the publisher's
      stream is indexed once the publisher has a stream. */
  function PreviewedMap(publisher: Publisher, streamMap: StreamMap): (r: StreamMap)
    ensures publisher.stream.Some? ==> Read(r, PropKey(publisher.streamId)) == publisher.id
    ensures publisher.stream.None? ==> r == streamMap
  {
    if publisher.stream.Some? then streamMap[PropKey(publisher.streamId) := publisher.id] else streamMap
  }

  /** How `publishPreview` settles: an error rejects it, whatever follows; a
      publisher without a stream, or of a type with no bucket, throws inside
      the engine callback and the promise never settles. */
  function PreviewSettlement(publisher: Publisher, error: Option<Error>, publishers: Buckets): (s: Settlement<Publisher>)
    ensures s.Resolved? <==> error.None? && PreviewFiles(publisher, publishers)
    ensures s.Resolved? ==> s.value == publisher
    ensures s.Rejected? <==> error.Some?
    ensures s.Hanging? ==> s.thrown == TypeError
  {
    if error.Some? then Rejected(error.value)
    else if !PreviewFiles(publisher, publishers) then Hanging(TypeError)
    else Resolved(publisher)
  }

  /** Unpublishing a publisher that `publishPreview` filed, with its own
      truthy id, takes it out again: the bucket is as before, less that id. */
  lemma UnpublishUndoesPreview(publisher: Publisher, publishers: Buckets, streamMap: StreamMap)
    requires PreviewFiles(publisher, publishers) && Truthy(publisher.id)
    ensures var kind := PropKey(publisher.stream.value.videoType);
      Drop(Previewed(publisher, publishers), kind, PropKey(Or(publisher.id, Read(streamMap, PropKey(publisher.streamId)))))
      == Drop(publishers, kind, PropKey(publisher.id))
  {
    var kind := PropKey(publisher.stream.value.videoType);
    var k := PropKey(publisher.id);
    assert Or(publisher.id, Read(streamMap, PropKey(publisher.streamId))) == publisher.id;
    assert Previewed(publisher, publishers)[kind] - {k} == publishers[kind] - {k};
  }

  /** The listeners the wrapper puts on its own session. */
  const StreamCreatedListener := Callback(0)
  const StreamDestroyedListener := Callback(1)

  class Wrapper {
    const credentials: Json
    const state: State
    const session: Session
    /** Whether the store's own 'streamCreated' and 'streamDestroyed'
        listeners are still on the session. */
    var listening: bool

    predicate Valid()
      reads this, state
    {
      state.Valid() && Complete(credentials)
    }

    /** The wrapper once its credentials have been checked: a fresh store, a
        fresh session, and the session listeners that keep the store's
        streams up to date. */
    constructor (credentials: Json)
      requires Complete(credentials)
      ensures Valid() && fresh(state) && fresh(session)
      ensures this.credentials == credentials && listening
      ensures state.publishers == map["camera" := map[], "screen" := map[]]
      ensures state.subscribers == map["camera" := map[], "screen" := map[]]
      ensures state.streams == map[] && state.streamMap == map[]
      ensures session.calls == [Listen(OnSession, "streamCreated", StreamCreatedListener),
                                Listen(OnSession, "streamDestroyed", StreamDestroyedListener)]
    {
      this.credentials := credentials;
      state := new State();
      session := new Session();
      listening := true;
      new;
      session.Record(Listen(OnSession, "streamCreated", StreamCreatedListener));
      session.Record(Listen(OnSession, "streamDestroyed", StreamDestroyedListener));
    }

    /** `new OpenTokSDK(credentials)`: credentials that fail the check throw
        before anything is created. */
    static method Create(credentials: Json) returns (r: Result<Wrapper>)
      ensures r.Err? <==> !Complete(credentials)
      ensures r.Err? ==> r.error == ValidateCredentials(credentials).error
      ensures r.Ok? ==>
        && fresh(r.value) && fresh(r.value.state) && fresh(r.value.session)
        && r.value.Valid() && r.value.credentials == credentials && r.value.listening
        && r.value.state.streams == map[] && r.value.state.streamMap == map[]
    {
      var checked := ValidateCredentials(credentials);
      if checked.Err? {
        return Err(checked.error);
      }
      var w := new Wrapper(credentials);
      r := Ok(w);
    }

    /** A 'streamCreated' event on the session: while the store's listener is
        on, remember the stream (an event without one throws); once it has
        been removed, the event reaches nothing. */
    method StreamCreated(event: SessionEvent) returns (r: Outcome)
      requires Valid()
      modifies state
      ensures Valid()
      ensures r.Fail? <==> listening && event.stream.None?
      ensures r.Fail? ==> r.error == TypeError
      ensures state.streams == if listening && event.stream.Some?
                               then old(state.streams)[event.stream.value.id := event.stream.value]
                               else old(state.streams)
      ensures state.streamMap == old(state.streamMap)
      ensures state.publishers == old(state.publishers) && state.subscribers == old(state.subscribers)
    {
      if !listening {
        return Done;
      }
      if event.stream.None? {
        return Fail(TypeError);
      }
      state.AddStream(event.stream.value);
      r := Done;
    }

    /** A 'streamDestroyed' event on the session: while the store's listener
        is on, forget the stream and the subscriber the stream map names for
        it; once it has been removed, the event reaches nothing. */
    method StreamDestroyed(event: SessionEvent) returns (r: Outcome)
      requires Valid()
      modifies state
      ensures Valid()
      ensures state.publishers == old(state.publishers)
      ensures !listening ==>
        && r == Done
        && state.streams == old(state.streams) && state.streamMap == old(state.streamMap)
        && state.subscribers == old(state.subscribers)
      ensures listening && event.stream.None? ==>
        && r == Fail(TypeError)
        && state.streams == old(state.streams) && state.streamMap == old(state.streamMap)
        && state.subscribers == old(state.subscribers)
      ensures listening && event.stream.Some? ==>
        var stream := event.stream.value;
        && state.streams == old(state.streams) - {stream.id}
        && state.streamMap == old(state.streamMap) - {stream.id}
        && (r.Fail? <==> !Mapped(old(state.subscribers), old(state.streamMap), stream))
        && (r.Fail? ==> r.error == TypeError && state.subscribers == old(state.subscribers))
        && (r.Done? ==> state.subscribers == Drop(old(state.subscribers), PropKey(stream.videoType),
              PropKey(old(state.subscribers)[PropKey(stream.videoType)][MappedKey(old(state.streamMap), stream)].id)))
    {
      if !listening {
        return Done;
      }
      if event.stream.None? {
        return Fail(TypeError);
      }
      r := state.RemoveStream(event.stream.value);
    }

    /** `bindListeners(target, listeners)`: attach each pair in turn; a value
        that is not a function throws and ends the binding. */
    method BindListeners(target: ListenTarget, listeners: ListenerArg) returns (r: Outcome)
      modifies session
      ensures session.calls == old(session.calls) + ListenCalls(target, Binding(Pairs(listeners)).listened)
      ensures r.Fail? <==> Binding(Pairs(listeners)).error.Some?
      ensures r.Fail? ==> r.error == Binding(Pairs(listeners)).error.value
    {
      var pairs := Pairs(listeners);
      ghost var bound := Binding(pairs);
      var i := 0;
      while i < |pairs|
        invariant 0 <= i <= |bound.listened|
        invariant forall j | 0 <= j < i :: pairs[j].1.FunctionArg?
        invariant session.calls == old(session.calls) + ListenCalls(target, bound.listened[..i])
      {
        var pair := BindListener(StringArg(pairs[i].0), pairs[i].1);
        if pair.Err? {
          assert !FirstNonFunction(pairs, i) ==> i < |bound.listened|;
          assert bound.listened[..i] == bound.listened;
          return Fail(pair.error);
        }
        assert !FirstNonFunction(pairs, i);
        assert i < |bound.listened|;
        session.Record(Listen(target, pair.value.0, pair.value.1));
        ListenCallsStep(old(session.calls), target, bound.listened, i);
        i := i + 1;
      }
      assert bound.listened[..i] == bound.listened;
      r := Done;
    }

    /** `on(...)`: an object (or array) of listeners is bound, an event name
        and a listener are checked and bound, and anything else is ignored;
        `null` is an object whose keys cannot be read. */
    method On(args: OnArgs) returns (r: Outcome)
      requires Valid()
      modifies session
      ensures args.OnObject? ==>
        && session.calls == old(session.calls) + ListenCalls(OnSession, Binding(Pairs(args.listeners)).listened)
        && (r.Fail? <==> Binding(Pairs(args.listeners)).error.Some?)
      ensures args.OnNull? ==> r == Fail(TypeError) && session.calls == old(session.calls)
      ensures args.OnPair? ==>
        var bound := BindListener(args.event, args.callback);
        && (r.Done? <==> bound.Ok?)
        && (r.Fail? ==> r.error == bound.error && session.calls == old(session.calls))
        && (r.Done? ==> session.calls == old(session.calls) + [Listen(OnSession, bound.value.0, bound.value.1)])
      ensures args.OnOther? ==> r == Done && session.calls == old(session.calls)
    {
      match args
      case OnObject(listeners) =>
        r := BindListeners(OnSession, listeners);
      case OnNull =>
        r := Fail(TypeError);
      case OnPair(event, callback) =>
        var bound := BindListener(event, callback);
        if bound.Err? {
          return Fail(bound.error);
        }
        session.Record(Listen(OnSession, bound.value.0, bound.value.1));
        r := Done;
      case OnOther =>
        r := Done;
    }

    /** The loop of `enablePublisherAudio` and `enablePublisherVideo`: call
        `avMethod` on every camera publisher. */
    method EnablePublisherAV(avMethod: string, enable: bool) returns (ghost order: seq<string>)
      requires Valid()
      modifies session
      ensures Enumerates(order, state.publishers["camera"].Keys)
      ensures session.calls == old(session.calls) + Toggling(state.publishers["camera"], order, avMethod, enable)
    {
      var bucket := state.GetPubSub().publishers["camera"];
      var pending := bucket.Keys;
      order := [];
      while pending != {}
        invariant Visiting(order, bucket.Keys, pending)
        invariant session.calls == old(session.calls) + Toggling(bucket, order, avMethod, enable)
        decreases pending
      {
        var id :| id in pending;
        session.Record(PublisherAV(bucket[id], avMethod, enable));
        TogglingSnoc(old(session.calls), bucket, order, id, avMethod, enable);
        VisitingStep(order, bucket.Keys, pending, id);
        order := order + [id];
        pending := pending - {id};
      }
      VisitingDone(order, bucket.Keys);
    }

    /** `enablePublisherAudio(enable)`. */
    method EnablePublisherAudio(enable: bool) returns (ghost order: seq<string>)
      requires Valid()
      modifies session
      ensures Enumerates(order, state.publishers["camera"].Keys)
      ensures session.calls == old(session.calls) + Toggling(state.publishers["camera"], order, "publishAudio", enable)
    {
      order := EnablePublisherAV("publishAudio", enable);
    }

    /** `enablePublisherVideo(enable)`. */
    method EnablePublisherVideo(enable: bool) returns (ghost order: seq<string>)
      requires Valid()
      modifies session
      ensures Enumerates(order, state.publishers["camera"].Keys)
      ensures session.calls == old(session.calls) + Toggling(state.publishers["camera"], order, "publishVideo", enable)
    {
      order := EnablePublisherAV("publishVideo", enable);
    }

    /** The body of `enableSubscriberAudio` and `enableSubscriberVideo`: call
        `avMethod` on the subscriber found for the stream, if there is one. */
    method EnableSubscriberAV(streamId: string, avMethod: string, enable: bool)
      requires Valid()
      modifies session
      ensures var found := FindSubscriber(state.streamMap, state.subscribers, streamId);
        session.calls == old(session.calls) + (if found.Some? then [SubscriberAV(found.value, avMethod, enable)] else [])
    {
      var snapshot := state.All();
      var found := FindSubscriber(snapshot.streamMap, snapshot.pubSub.subscribers, streamId);
      if found.Some? {
        session.Record(SubscriberAV(found.value, avMethod, enable));
      }
    }

    /** `enableSubscriberAudio(streamId, enable)` as written: it calls the
        video method (see `SubscriberMethodsSwapped`). */
    method EnableSubscriberAudio(streamId: string, enable: bool)
      requires Valid()
      modifies session
      ensures var found := FindSubscriber(state.streamMap, state.subscribers, streamId);
        session.calls == old(session.calls)
          + (if found.Some? then [SubscriberAV(found.value, "subscribeToVideo", enable)] else [])
    {
      EnableSubscriberAV(streamId, SubscriberMethodAsWritten("audio"), enable);
    }

    /** `enableSubscriberVideo(streamId, enable)` as written: it calls the
        audio method. */
    method EnableSubscriberVideo(streamId: string, enable: bool)
      requires Valid()
      modifies session
      ensures var found := FindSubscriber(state.streamMap, state.subscribers, streamId);
        session.calls == old(session.calls)
          + (if found.Some? then [SubscriberAV(found.value, "subscribeToAudio", enable)] else [])
    {
      EnableSubscriberAV(streamId, SubscriberMethodAsWritten("video"), enable);
    }

    /** `enableSubscriberAudio` as its name and documentation intend: the
        subscriber's audio method. */
    method EnableSubscriberAudioIntended(streamId: string, enable: bool)
      requires Valid()
      modifies session
      ensures var found := FindSubscriber(state.streamMap, state.subscribers, streamId);
        session.calls == old(session.calls)
          + (if found.Some? then [SubscriberAV(found.value, "subscribeToAudio", enable)] else [])
    {
      EnableSubscriberAV(streamId, SubscriberMethod("audio"), enable);
    }

    /** `enableSubscriberVideo` as intended: the subscriber's video method. */
    method EnableSubscriberVideoIntended(streamId: string, enable: bool)
      requires Valid()
      modifies session
      ensures var found := FindSubscriber(state.streamMap, state.subscribers, streamId);
        session.calls == old(session.calls)
          + (if found.Some? then [SubscriberAV(found.value, "subscribeToVideo", enable)] else [])
    {
      EnableSubscriberAV(streamId, SubscriberMethod("video"), enable);
    }

    /** `publishPreview(publisher)`, given the error `session.publish` answers
        with: the publisher is filed under its stream's type even when the
        engine reported an error, which has already rejected the promise. */
    method PublishPreview(publisher: Publisher, error: Option<Error>) returns (s: Settlement<Publisher>)
      requires Valid()
      modifies state, session
      ensures Valid()
      ensures session.calls == old(session.calls) + [Engine.Publish(publisher)]
      ensures s == PreviewSettlement(publisher, error, old(state.publishers))
      ensures state.publishers == Previewed(publisher, old(state.publishers))
      ensures state.streamMap == PreviewedMap(publisher, old(state.streamMap))
      ensures state.streams == old(state.streams) && state.subscribers == old(state.subscribers)
    {
      session.Record(Engine.Publish(publisher));
      if publisher.stream.None? {
        return if error.Some? then Rejected(error.value) else Hanging(TypeError);
      }
      var added := state.AddPublisher(PropKey(publisher.stream.value.videoType), publisher);
      if error.Some? {
        return Rejected(error.value);
      }
      s := if added.Fail? then Hanging(TypeError) else Resolved(publisher);
    }

    /** `publish(element, properties, eventListeners, preview)`, given the
        engine's answers: the publisher `OT.initPublisher` creates or its
        error, and the error of `session.publish`. Listeners that cannot be
        bound reject the call; a preview resolves without publishing. */
    method Publish(properties: Json, listeners: Option<ListenerArg>, preview: bool,
                   init: Result<Publisher>, publishError: Option<Error>) returns (s: Settlement<Publisher>)
      requires Valid()
      modifies state, session
      ensures Valid()
      ensures state.streams == old(state.streams) && state.subscribers == old(state.subscribers)
      ensures init.Err? ==>
        && s == Rejected(init.error)
        && session.calls == old(session.calls) + [InitPublisher(properties)]
        && state.publishers == old(state.publishers) && state.streamMap == old(state.streamMap)
      ensures init.Ok? ==>
        var bound := if listeners.Some? then Binding(Pairs(listeners.value)) else Bound([], None);
        var created := old(session.calls) + [InitPublisher(properties)] + ListenCalls(OnPublisher(init.value), bound.listened);
        && (bound.error.Some? || preview ==>
              && s == (if bound.error.Some? then Rejected(bound.error.value) else Resolved(init.value))
              && session.calls == created
              && state.publishers == old(state.publishers) && state.streamMap == old(state.streamMap))
        && (bound.error.None? && !preview ==>
              && s == PreviewSettlement(init.value, publishError, old(state.publishers))
              && session.calls == created + [Engine.Publish(init.value)]
              && state.publishers == Previewed(init.value, old(state.publishers))
              && state.streamMap == PreviewedMap(init.value, old(state.streamMap)))
    {
      session.Record(InitPublisher(properties));
      if init.Err? {
        return Rejected(init.error);
      }
      var publisher := init.value;
      if listeners.Some? {
        var bound := BindListeners(OnPublisher(publisher), listeners.value);
        if bound.Fail? {
          return Rejected(bound.error);
        }
      }
      if preview {
        return Resolved(publisher);
      }
      s := PublishPreview(publisher, publishError);
    }

    /** `unpublish(publisher)`: a publisher without a stream throws before
        anything happens; otherwise the engine is told, and the publisher is
        removed from the bucket of its stream's type, which must exist. */
    method Unpublish(publisher: Publisher) returns (r: Outcome)
      requires Valid()
      modifies state, session
      ensures Valid()
      ensures state.streams == old(state.streams) && state.subscribers == old(state.subscribers)
      ensures state.streamMap == old(state.streamMap)
      ensures r.Fail? <==> !PreviewFiles(publisher, old(state.publishers))
      ensures r.Fail? ==> r.error == TypeError && state.publishers == old(state.publishers)
      ensures publisher.stream.None? ==> session.calls == old(session.calls)
      ensures publisher.stream.Some? ==> session.calls == old(session.calls) + [Engine.Unpublish(publisher)]
      ensures r.Done? ==>
        state.publishers == Drop(old(state.publishers), PropKey(publisher.stream.value.videoType),
                                 PropKey(Or(publisher.id, Read(old(state.streamMap), PropKey(publisher.streamId)))))
    {
      if publisher.stream.None? {
        return Fail(TypeError);
      }
      session.Record(Engine.Unpublish(publisher));
      r := state.RemovePublisher(PropKey(publisher.stream.value.videoType), publisher);
    }

    /** `subscribe(stream, container, properties, eventListeners)`, given the
        engine's reply. An error rejects; a subscriber the store cannot file,
        or listeners that cannot be bound, throw inside the engine callback
        and the promise never settles. */
    method Subscribe(stream: Stream, properties: Json, listeners: Option<ListenerArg>, reply: SubscribeReply)
      returns (s: Settlement<Subscriber>)
      requires Valid()
      modifies state, session
      ensures Valid()
      ensures state.streams == old(state.streams) && state.publishers == old(state.publishers)
      ensures !(reply.error.None? && Fileable(reply.subscriber, old(state.subscribers))) ==>
        && s == (if reply.error.Some? then Rejected(reply.error.value) else Hanging(TypeError))
        && session.calls == old(session.calls) + [Engine.Subscribe(stream, properties)]
        && state.subscribers == old(state.subscribers) && state.streamMap == old(state.streamMap)
      ensures reply.error.None? && Fileable(reply.subscriber, old(state.subscribers)) ==>
        var subscriber := reply.subscriber;
        var bound := if listeners.Some? then Binding(Pairs(listeners.value)) else Bound([], None);
        && state.subscribers == Put(old(state.subscribers), SubscriberBucket(subscriber).value, PropKey(subscriber.id), subscriber)
        && state.streamMap == old(state.streamMap)[subscriber.stream.value.id := subscriber.id]
        && session.calls == old(session.calls) + [Engine.Subscribe(stream, properties)]
                            + ListenCalls(OnSubscriber(subscriber), bound.listened)
        && s == (if bound.error.Some? then Hanging(bound.error.value) else Resolved(subscriber))
    {
      session.Record(Engine.Subscribe(stream, properties));
      if reply.error.Some? {
        return Rejected(reply.error.value);
      }
      var subscriber := reply.subscriber;
      var added := state.AddSubscriber(subscriber);
      if added.Fail? {
        return Hanging(added.error);
      }
      if listeners.Some? {
        var bound := BindListeners(OnSubscriber(subscriber), listeners.value);
        if bound.Fail? {
          return Hanging(bound.error);
        }
      }
      s := Resolved(subscriber);
    }

    /** `unsubscribe(subscriber)`: the engine is told, then the subscriber is
        removed from the bucket of its stream's type; a subscriber the store
        cannot place rejects the promise. */
    method Unsubscribe(subscriber: Subscriber) returns (s: Settlement<()>)
      requires Valid()
      modifies state
      modifies session
      ensures Valid()
      ensures session.calls == old(session.calls) + [Engine.Unsubscribe(subscriber)]
      ensures state.streams == old(state.streams) && state.publishers == old(state.publishers)
      ensures state.streamMap == old(state.streamMap)
      ensures s.Resolved? <==> Fileable(subscriber, old(state.subscribers))
      ensures !s.Resolved? ==> s == Rejected(TypeError) && state.subscribers == old(state.subscribers)
      ensures s.Resolved? ==>
        state.subscribers == Drop(old(state.subscribers), SubscriberBucket(subscriber).value, PropKey(subscriber.id))
    {
      session.Record(Engine.Unsubscribe(subscriber));
      var removed := state.RemoveSubscriber(Some(subscriber));
      s := if removed.Fail? then Rejected(TypeError) else Resolved(());
    }

    /** `connect(eventListeners)`: every session listener is removed (the
        store's own included, so the store stops following the session's
        streams), the given listeners are bound, and the engine is asked to
        connect with the token. Listeners that cannot be bound throw before
        the promise exists. */
    method Connect(listeners: Option<ListenerArg>, error: Option<Error>) returns (r: Result<Settlement<()>>)
      requires Valid()
      modifies this, session
      ensures Valid() && !listening
      ensures var bound := if listeners.Some? then Binding(Pairs(listeners.value)) else Bound([], None);
        var bind := old(session.calls) + [OffAll] + ListenCalls(OnSession, bound.listened);
        && (r.Err? <==> bound.error.Some?)
        && (r.Err? ==> r.error == bound.error.value && session.calls == bind)
        && (r.Ok? ==> session.calls == bind + [Engine.Connect(Core.Token(credentials))]
                      && r.value == (if error.Some? then Rejected(error.value) else Resolved(())))
    {
      session.Record(OffAll);
      listening := false;
      r := BindAndConnect(listeners, error);
    }

    /** The part of `connect` after the `off`: bind the given listeners,
        then ask the engine to connect with the token. */
    method BindAndConnect(listeners: Option<ListenerArg>, error: Option<Error>) returns (r: Result<Settlement<()>>)
      requires Valid()
      modifies session
      ensures var bound := if listeners.Some? then Binding(Pairs(listeners.value)) else Bound([], None);
        var bind := old(session.calls) + ListenCalls(OnSession, bound.listened);
        && (r.Err? <==> bound.error.Some?)
        && (r.Err? ==> r.error == bound.error.value && session.calls == bind)
        && (r.Ok? ==> session.calls == bind + [Engine.Connect(Core.Token(credentials))]
                      && r.value == (if error.Some? then Rejected(error.value) else Resolved(())))
    {
      if listeners.Some? {
        var bound := BindListeners(OnSession, listeners.value);
        if bound.Fail? {
          return Err(bound.error);
        }
      }
      session.Record(Engine.Connect(Core.Token(credentials)));
      r := Ok(if error.Some? then Rejected(error.value) else Resolved(()));
    }

    /** `connect` as it is evidently meant to be: the listeners bound by
        earlier calls are removed, but the store's own two are put back, so
        the store keeps following the session's streams. */
    method ConnectKeepingListeners(listeners: Option<ListenerArg>, error: Option<Error>)
      returns (r: Result<Settlement<()>>)
      requires Valid()
      modifies this, session
      ensures Valid() && listening
      ensures var bound := if listeners.Some? then Binding(Pairs(listeners.value)) else Bound([], None);
        var bind := old(session.calls) + [OffAll, Listen(OnSession, "streamCreated", StreamCreatedListener),
                                          Listen(OnSession, "streamDestroyed", StreamDestroyedListener)]
                    + ListenCalls(OnSession, bound.listened);
        && (r.Err? <==> bound.error.Some?)
        && (r.Err? ==> r.error == bound.error.value && session.calls == bind)
        && (r.Ok? ==> session.calls == bind + [Engine.Connect(Core.Token(credentials))]
                      && r.value == (if error.Some? then Rejected(error.value) else Resolved(())))
    {
      session.Record(OffAll);
      session.Record(Listen(OnSession, "streamCreated", StreamCreatedListener));
      session.Record(Listen(OnSession, "streamDestroyed", StreamDestroyedListener));
      listening := true;
      ghost var kept := session.calls;
      assert kept == old(session.calls) + [OffAll, Listen(OnSession, "streamCreated", StreamCreatedListener),
                                           Listen(OnSession, "streamDestroyed", StreamDestroyedListener)];
      r := BindAndConnect(listeners, error);
    }

    /** `signal(type, signalData, to)`, given the engine's answer. */
    method Signal(signalType: Json, data: Json, to: Json, error: Option<Error>) returns (s: Settlement<()>)
      requires Valid()
      modifies session
      ensures session.calls == old(session.calls) + [SendSignal(SdkSignal(signalType, data, to))]
      ensures s == if error.Some? then Rejected(error.value) else Resolved(())
    {
      session.Record(SendSignal(SdkSignal(signalType, data, to)));
      s := if error.Some? then Rejected(error.value) else Resolved(());
    }

    /** `disconnect()`: tell the engine, then reset the store. */
    method Disconnect()
      requires Valid()
      modifies state, session
      ensures Valid()
      ensures session.calls == old(session.calls) + [Engine.Disconnect]
      ensures state.streams == map[] && state.streamMap == map[]
      ensures state.GetPubSub().meta == Meta(Counts(0, 0, 0), Counts(0, 0, 0))
    {
      session.Record(Engine.Disconnect);
      state.Reset();
    }
  }

  /** As written: on a fresh wrapper that has connected, a stream the
      session then announces never reaches the store. */
  method StreamUntrackedAfterConnect(credentials: Json, stream: Stream) returns (tracked: bool)
    requires Complete(credentials)
    ensures !tracked
  {
    var w := new Wrapper(credentials);
    var connected := w.Connect(None, None);
    var created := w.StreamCreated(SessionEvent(Some(stream)));
    tracked := stream.id in w.state.streams;
  }

  /** With the store's listeners kept, the same stream is recorded. */
  method StreamTrackedAfterConnect(credentials: Json, stream: Stream) returns (tracked: bool)
    requires Complete(credentials)
    ensures tracked
  {
    var w := new Wrapper(credentials);
    var connected := w.ConnectKeepingListeners(None, None);
    var created := w.StreamCreated(SessionEvent(Some(stream)));
    tracked := stream.id in w.state.streams;
  }

}
