/**
  The accelerator core's public face: the argument checks of `init`, the
  wiring that keeps the state module up to date as session and
  screen-sharing events arrive before it re-broadcasts them, and the thin
  operations (`connect`, `disconnect`, `signal`, the audio/video toggles)
  that go through the engine session and the communication layer.

  The module's variables (the state module's session, credentials and
  options) are the fields of one `Facade`; the event bus, the state module
  and the engine session are those its communication layer shares.
 */
module Core {
  import opened Js
  import opened Util
  import opened Entities
  import opened EventBus
  import opened SessionState
  import opened Engine
  import opened Payloads
  import opened Communication
  import opened Credentials

  /** `validateCredentials(credentials = [])`: an omitted argument becomes an
      empty array; `null` cannot be read and throws a TypeError; otherwise
      the first required credential that is missing throws. */
  function ValidateCredentials(credentials: Json): (r: Outcome)
    ensures r.Done? <==> Complete(credentials)
    ensures credentials.Null? ==> r == Fail(TypeError)
    ensures credentials.Undefined? ==> r == Fail(CoreError(MissingText("apiKey"), "invalidParameters"))
    ensures r.Fail? && !credentials.Null? ==>
      exists i :: MissingAt(Defaulted(credentials, Arr([])), Required, i)
                  && r.error == CoreError(MissingText(Required[i]), "invalidParameters")
  {
    EmptyLacksApiKey(Arr([]));
    match FirstMissing(Defaulted(credentials, Arr([])), Required)
    case Err(e) => Fail(e)
    case Ok(None) => Done
    case Ok(Some(name)) => Fail(CoreError(MissingText(name), "invalidParameters"))
  }

  const MissingOptionsText := "Missing options required for initialization"

  /** The checks `init` makes before it touches anything: the options must be
      truthy, and their `credentials` complete. */
  function CheckInit(options: Json): (r: Outcome)
    ensures r.Done? <==> JsonTruthy(options) && Complete(Get(options, "credentials").value)
    ensures !JsonTruthy(options) ==> r == Fail(CoreError(MissingOptionsText, "invalidParameters"))
    ensures JsonTruthy(options) && r.Fail? ==>
      r.error == TypeError || (r.error.ClassError? && r.error.errorType == "invalidParameters")
  {
    if !JsonTruthy(options) then Fail(CoreError(MissingOptionsText, "invalidParameters"))
    else ValidateCredentials(Get(options, "credentials").value)
  }

  /** The npm package that provides each accelerator pack. */
  function PackageModule(name: string): (m: Option<string>)
    ensures m.Some? ==> name != []
  {
    match name
    case "textChat" => Some("opentok-text-chat")
    case "screenSharing" => Some("opentok-screen-sharing")
    case "annotation" => Some("opentok-annotation")
    case "archiving" => Some("opentok-archiving")
    case _ => None
  }

  /** A known pack whose module cannot be loaded. */
  predicate Unloadable(name: string, loadable: set<string>)
  {
    PackageModule(name).Some? && PackageModule(name).value !in loadable
  }

  /** `requested[i]` is the first pack that cannot be loaded. */
  predicate FirstUnloadable(requested: seq<string>, loadable: set<string>, i: int)
  {
    0 <= i < |requested| && Unloadable(requested[i], loadable)
    && forall j | 0 <= j < i :: !Unloadable(requested[j], loadable)
  }

  /** The error `optionalRequire` throws for a pack it cannot load. */
  function MissingDependency(name: string): Error
    requires PackageModule(name).Some?
  {
    CoreError("Could not load " + PackageModule(name).value, "missingDependency")
  }

  /** The names under which the loaded packs are recorded: each known pack
      requested, proper-cased. */
  function LoadedNames(requested: seq<string>): set<string>
  {
    set i | 0 <= i < |requested| && PackageModule(requested[i]).Some? :: Capitalized(requested[i])
  }

  /** The package loop of `initPackages`, given the set of modules the
      environment can load: unknown names are skipped with a notice, and the
      first known pack that cannot be loaded throws 'missingDependency'. */
  function LoadPackages(requested: seq<string>, loadable: set<string>): (r: Result<set<string>>)
    ensures r.Err? <==> exists i | 0 <= i < |requested| :: Unloadable(requested[i], loadable)
    ensures r.Err? ==> exists i :: FirstUnloadable(requested, loadable, i) && r.error == MissingDependency(requested[i])
    ensures r.Ok? ==> r.value == LoadedNames(requested)
    decreases |requested|
  {
    if requested == [] then Ok({})
    else
      var name := requested[0];
      var rest := LoadPackages(requested[1..], loadable);
      assert forall i | 1 <= i < |requested| :: requested[i] == requested[1..][i - 1];
      if Unloadable(name, loadable) then
        assert FirstUnloadable(requested, loadable, 0);
        Err(MissingDependency(name))
      else if rest.Err? then
        assert exists i :: FirstUnloadable(requested, loadable, i) && rest.error == MissingDependency(requested[i]) by {
          var k :| FirstUnloadable(requested[1..], loadable, k) && rest.error == MissingDependency(requested[1..][k]);
          assert FirstUnloadable(requested, loadable, k + 1);
        }
        rest
      else
        var loaded := if PackageModule(name).Some? then {Capitalized(name)} + rest.value else rest.value;
        assert loaded == LoadedNames(requested) by {
          LoadedNamesCons(requested);
        }
        Ok(loaded)
  }

  /** The names loaded from a list are those of its head and of its tail. */
  lemma LoadedNamesCons(requested: seq<string>)
    requires requested != []
    ensures LoadedNames(requested) ==
      (if PackageModule(requested[0]).Some? then {Capitalized(requested[0])} else {}) + LoadedNames(requested[1..])
  {
    var tail := requested[1..];
    forall x | x in LoadedNames(requested)
      ensures x in (if PackageModule(requested[0]).Some? then {Capitalized(requested[0])} else {}) + LoadedNames(tail)
    {
      var i :| 0 <= i < |requested| && PackageModule(requested[i]).Some? && x == Capitalized(requested[i]);
      if i > 0 {
        assert requested[i] == tail[i - 1];
      }
    }
    forall x | x in LoadedNames(tail) ensures x in LoadedNames(requested) {
      var i :| 0 <= i < |tail| && PackageModule(tail[i]).Some? && x == Capitalized(tail[i]);
      assert tail[i] == requested[i + 1];
    }
  }

  /** With the text chat module unavailable, asking for the text chat pack
      fails with an error that names the module. */
  lemma MissingTextChat(loadable: set<string>)
    requires "opentok-text-chat" !in loadable
    ensures LoadPackages(["textChat"], loadable) == Err(CoreError("Could not load opentok-text-chat", "missingDependency"))
  {
    assert Unloadable(["textChat"][0], loadable);
  }

  /** The object handed to `session.signal`: `type`, the serialised `data`
      and `to`, each present only when its argument is truthy. */
  function SignalObject(signalType: Json, data: Json, to: Json): (s: Signal)
    ensures s.signalType.Some? <==> JsonTruthy(signalType)
    ensures s.data.Some? <==> JsonTruthy(data)
    ensures s.to.Some? <==> JsonTruthy(to)
    ensures s.signalType.Some? ==> s.signalType.value == signalType
    ensures s.data.Some? ==> s.data.value == Stringify(data)
    ensures s.to.Some? ==> s.to.value == to
  {
    Signal(if JsonTruthy(signalType) then Some(signalType) else None,
           if JsonTruthy(data) then Some(Stringify(data)) else None,
           if JsonTruthy(to) then Some(to) else None)
  }

  /** The token of complete credentials. */
  function Token(credentials: Json): (t: Json)
    requires Complete(credentials)
    ensures JsonTruthy(t) && Get(credentials, "token") == Ok(t)
  {
    assert Has(credentials, Required[2]);
    Get(credentials, "token").value
  }

  /** The counts of a state with every bucket empty. */
  const NoPubSub := Meta(PublisherCounts(0, 0, 0), SubscriberCounts(0, 0, 0, 0))

  /** The listeners the n-th `init` puts on the core's own bus for screen
      sharing: every `init` makes a new pair of closures. */
  function StartScreenSharingListener(n: nat): Callback
  {
    Callback(2 + 2 * n)
  }

  function EndScreenSharingListener(n: nat): Callback
  {
    Callback(3 + 2 * n)
  }

  /** No two `init`s share a screen-sharing listener, so a repeated `init`
      adds a second pair rather than finding the first. */
  lemma ScreenSharingListenersFresh(n: nat, m: nat)
    ensures StartScreenSharingListener(n) != EndScreenSharingListener(m)
    ensures StartScreenSharingListener(n) == StartScreenSharingListener(m) <==> n == m
    ensures EndScreenSharingListener(n) == EndScreenSharingListener(m) <==> n == m
  {
  }

  class Facade {
    /** The communication layer, and through it the state module, the bus
        and the engine session. */
    const comm: Coordinator
    var credentials: Json
    var options: Json
    var initialised: bool
    /** How many `init` calls have got past the argument checks. */
    var inits: nat

    predicate Valid()
      reads this, comm, comm.store, comm.bus
    {
      comm.Valid() && (initialised ==> Complete(credentials))
    }

    /** The module as loaded: no credentials, no options. */
    constructor (comm: Coordinator)
      requires comm.Valid()
      ensures Valid() && this.comm == comm
      ensures !initialised && credentials == Null && options == Null && inits == 0
    {
      this.comm := comm;
      inits := 0;
      credentials := Null;
      options := Null;
      initialised := false;
    }

    /** `init(options)`: check the arguments, then register the
        accelerator's event names (`eventNames`, all the names the events
        module lists) and the core's screen-sharing listeners, and keep the
        credentials and options. */
    method Init(options: Json, eventNames: seq<string>) returns (r: Outcome)
      requires Valid()
      modifies this, comm.bus
      ensures Valid()
      ensures r == CheckInit(options)
      ensures r.Fail? ==>
        && credentials == old(credentials) && this.options == old(this.options)
        && initialised == old(initialised) && inits == old(inits) && comm.bus.State() == old(comm.bus.State())
      ensures r.Done? ==>
        && initialised && credentials == Get(options, "credentials").value && this.options == options
        && inits == old(inits) + 1
        && comm.bus.listeners == OnName(OnName(RegisterAll(old(comm.bus.listeners), eventNames),
                                               "startScreenSharing", StartScreenSharingListener(old(inits))),
                                        "endScreenSharing", EndScreenSharingListener(old(inits)))
        && comm.bus.calls == old(comm.bus.calls) && comm.bus.triggered == old(comm.bus.triggered)
    {
      r := CheckInit(options);
      if r.Fail? {
        return;
      }
      comm.bus.RegisterEvents(Many(eventNames));
      comm.bus.On("startScreenSharing", StartScreenSharingListener(inits));
      comm.bus.On("endScreenSharing", EndScreenSharingListener(inits));
      credentials := Get(options, "credentials").value;
      this.options := options;
      initialised := true;
      inits := inits + 1;
    }

    /** The core's listener on a session event: `streamCreated` records the
        stream and `streamDestroyed` removes it, and only then is the event
        passed on under its own name. An update that throws (an event without
        a stream, a type with no bucket) stops the event from being passed on. */
    method OnSessionEvent(name: string, event: SessionEvent) returns (r: Outcome)
      requires Valid()
      modifies comm.store, comm.bus
      ensures Valid()
      ensures comm.store.publishers == old(comm.store.publishers)
      ensures r.Done? <==>
        && (name == "streamCreated" || name == "streamDestroyed" ==> event.stream.Some?)
        && (name == "streamDestroyed" ==> SipDefault(event.stream.value.videoType) in old(comm.store.subscribers))
      ensures r.Fail? ==> r.error == TypeError && comm.bus.State() == old(comm.bus.State())
      ensures r.Fail? ==>
        && comm.store.streams == old(comm.store.streams) && comm.store.subscribers == old(comm.store.subscribers)
        && comm.store.streamMap == if name == "streamDestroyed" && event.stream.Some?
                                   then old(comm.store.streamMap) - {event.stream.value.id}
                                   else old(comm.store.streamMap)
      ensures r.Done? ==> comm.bus.State() == Triggering(old(comm.bus.State()), Event(name, FromSession(event)))
      ensures name != "streamCreated" && name != "streamDestroyed" ==>
        && comm.store.streams == old(comm.store.streams) && comm.store.streamMap == old(comm.store.streamMap)
        && comm.store.subscribers == old(comm.store.subscribers)
      ensures name == "streamCreated" && r.Done? ==>
        && comm.store.streams == old(comm.store.streams)[event.stream.value.id := event.stream.value]
        && comm.store.streamMap == old(comm.store.streamMap) && comm.store.subscribers == old(comm.store.subscribers)
      ensures name == "streamDestroyed" && r.Done? ==>
        var stream := event.stream.value;
        && comm.store.streams == old(comm.store.streams) - {stream.id}
        && comm.store.streamMap == old(comm.store.streamMap) - {stream.id}
        && comm.store.subscribers == Drop(old(comm.store.subscribers), SipDefault(stream.videoType),
                                          PropKey(Read(old(comm.store.streamMap), stream.id)))
    {
      if name == "streamCreated" {
        if event.stream.None? {
          return Fail(TypeError);
        }
        comm.store.AddStream(event.stream.value);
      }
      if name == "streamDestroyed" {
        if event.stream.None? {
          return Fail(TypeError);
        }
        r := comm.store.RemoveStream(event.stream.value);
        if r.Fail? {
          return;
        }
      }
      comm.bus.TriggerEvent(name, FromSession(event));
      r := Done;
    }

    /** The 'startScreenSharing' listener: file the publisher under 'screen',
        then announce 'startScreenShare' with counts that already include it. */
    method OnStartScreenSharing(publisher: Publisher)
      requires Valid()
      modifies comm.store, comm.bus
      ensures Valid()
      ensures comm.store.publishers == Put(old(comm.store.publishers), "screen", PropKey(publisher.id), publisher)
      ensures comm.store.streamMap == old(comm.store.streamMap)[PropKey(publisher.streamId) := publisher.id]
      ensures comm.store.streams == old(comm.store.streams) && comm.store.subscribers == old(comm.store.subscribers)
      ensures comm.bus.State() == Triggering(old(comm.bus.State()),
                                             Event("startScreenShare", WithPublisher(CallData(comm.store.GetPubSub(), publisher))))
      ensures comm.store.GetPubSub().meta.publisher.screen
              == |old(comm.store.publishers)["screen"]| + (if PropKey(publisher.id) in old(comm.store.publishers)["screen"] then 0 else 1)
    {
      var added := comm.store.AddPublisher("screen", publisher);
      comm.bus.TriggerEvent("startScreenShare", WithPublisher(CallData(comm.store.GetPubSub(), publisher)));
    }

    /** The 'endScreenSharing' listener: remove the screen publisher, then
        announce 'endScreenShare' with the counts that no longer include it. */
    method OnEndScreenSharing(publisher: Publisher)
      requires Valid()
      modifies comm.store, comm.bus
      ensures Valid()
      ensures comm.store.publishers == Drop(old(comm.store.publishers), "screen",
                                            PropKey(Or(publisher.id, Read(old(comm.store.streamMap), PropKey(publisher.streamId)))))
      ensures comm.store.streamMap == old(comm.store.streamMap) - {PropKey(publisher.streamId)}
      ensures comm.store.streams == old(comm.store.streams) && comm.store.subscribers == old(comm.store.subscribers)
      ensures comm.bus.State() == Triggering(old(comm.bus.State()), Event("endScreenShare", Counts(comm.store.GetPubSub())))
      ensures Truthy(publisher.id) && publisher.id.value in old(comm.store.publishers)["screen"] ==>
        comm.store.GetPubSub().meta.publisher.screen == |old(comm.store.publishers)["screen"]| - 1
    {
      var removed := comm.store.RemovePublisher("screen", publisher);
      comm.bus.TriggerEvent("endScreenShare", Counts(comm.store.GetPubSub()));
    }

    /** `connect()`, given the engine's answer and the modules that can be
        loaded: before `init` there are no credentials to read and the call
        rejects; a connection error rejects; a pack that cannot be loaded
        throws inside the engine callback, so the call never settles;
        otherwise 'connected' is announced and the call resolves with the
        number of connections. */
    method Connect(requested: seq<string>, loadable: set<string>, connectError: Option<Error>, connections: nat)
      returns (s: Settlement<nat>)
      requires Valid()
      modifies comm.bus, comm.session
      ensures Valid()
      ensures !initialised ==> s == Rejected(TypeError) && comm.session.calls == old(comm.session.calls)
      ensures initialised ==> comm.session.calls == old(comm.session.calls) + [Engine.Connect(Token(credentials))]
      ensures initialised && connectError.Some? ==> s == Rejected(connectError.value)
      ensures initialised && connectError.None? && LoadPackages(requested, loadable).Err? ==>
        s == Hanging(LoadPackages(requested, loadable).error)
      ensures initialised && connectError.None? && LoadPackages(requested, loadable).Ok? ==>
        s == Resolved(connections) && comm.bus.State() == Triggering(old(comm.bus.State()), Event("connected", SessionHandle))
      ensures !(initialised && connectError.None? && LoadPackages(requested, loadable).Ok?) ==>
        comm.bus.State() == old(comm.bus.State())
    {
      if !initialised {
        return Rejected(TypeError);
      }
      comm.session.Record(Engine.Connect(Token(credentials)));
      if connectError.Some? {
        return Rejected(connectError.value);
      }
      var packages := LoadPackages(requested, loadable);
      if packages.Err? {
        return Hanging(packages.error);
      }
      comm.bus.TriggerEvent("connected", SessionHandle);
      s := Resolved(connections);
    }

    /** `disconnect()`: tell the engine, then reset the state whatever the
        engine does. With every handle stored under its own id, every count
        is zero afterwards. Before `init` there is no session: the call
        throws before the reset. */
    method Disconnect() returns (r: Outcome)
      requires Valid()
      modifies comm.store, comm.session
      ensures Valid()
      ensures r.Fail? <==> !initialised
      ensures r.Fail? ==>
        && r.error == TypeError && comm.session.calls == old(comm.session.calls)
        && comm.store.streams == old(comm.store.streams) && comm.store.streamMap == old(comm.store.streamMap)
        && comm.store.publishers == old(comm.store.publishers) && comm.store.subscribers == old(comm.store.subscribers)
      ensures r.Done? ==>
        && comm.session.calls == old(comm.session.calls) + [Engine.Disconnect]
        && comm.store.streams == map[] && comm.store.streamMap == map[]
        && (Keyed(old(comm.store.publishers)) && Keyed(old(comm.store.subscribers)) ==>
              comm.store.GetPubSub().meta == NoPubSub)
    {
      if !initialised {
        return Fail(TypeError);
      }
      comm.session.Record(Engine.Disconnect);
      comm.store.Reset();
      r := Done;
    }

    /** `signal(type, data, to)`, given the engine's answer. Before `init`
        there is no session: the executor throws and the promise rejects. */
    method Signal(signalType: Json, data: Json, to: Json, error: Option<Error>) returns (s: Settlement<()>)
      requires Valid()
      modifies comm.session
      ensures !initialised ==> s == Rejected(TypeError) && comm.session.calls == old(comm.session.calls)
      ensures initialised ==>
        && comm.session.calls == old(comm.session.calls) + [SendSignal(SignalObject(signalType, data, to))]
        && s == if error.Some? then Rejected(error.value) else Resolved(())
    {
      if !initialised {
        return Rejected(TypeError);
      }
      comm.session.Record(SendSignal(SignalObject(signalType, data, to)));
      s := if error.Some? then Rejected(error.value) else Resolved(());
    }

    /** The loop of `toggleLocalAudio` and `toggleLocalVideo`: `enableLocalAV`
        for the id of every camera publisher, each of which succeeds. */
    method ToggleLocal(source: string, enable: bool) returns (ghost order: seq<string>)
      requires Valid()
      requires LocalAVMethod(source).Ok? && LocalAVMethod(source).value in PublisherAVMethods
      modifies comm.session
      ensures Enumerates(order, comm.store.publishers["camera"].Keys)
      ensures comm.session.calls == old(comm.session.calls)
        + Toggling(comm.store.publishers["camera"], order, LocalAVMethod(source).value, enable)
    {
      var bucket := comm.store.GetPubSub().publishers["camera"];
      var pending := bucket.Keys;
      ghost var avMethod := LocalAVMethod(source).value;
      order := [];
      while pending != {}
        invariant comm.Valid() && bucket == comm.store.publishers["camera"]
        invariant Visiting(order, bucket.Keys, pending)
        invariant comm.session.calls == old(comm.session.calls) + Toggling(bucket, order, avMethod, enable)
        decreases pending
      {
        var id :| id in pending;
        var r := comm.EnableLocalAV(id, source, enable);
        TogglingSnoc(old(comm.session.calls), bucket, order, id, avMethod, enable);
        VisitingStep(order, bucket.Keys, pending, id);
        order := order + [id];
        pending := pending - {id};
      }
      VisitingDone(order, bucket.Keys);
    }

    /** `toggleLocalAudio(enable)`: 'publishAudio' on every camera publisher. */
    method ToggleLocalAudio(enable: bool) returns (ghost order: seq<string>)
      requires Valid()
      modifies comm.session
      ensures Enumerates(order, comm.store.publishers["camera"].Keys)
      ensures comm.session.calls == old(comm.session.calls) + Toggling(comm.store.publishers["camera"], order, "publishAudio", enable)
    {
      LocalAVMethods("audio");
      order := ToggleLocal("audio", enable);
    }

    /** `toggleLocalVideo(enable)`: 'publishVideo' on every camera publisher. */
    method ToggleLocalVideo(enable: bool) returns (ghost order: seq<string>)
      requires Valid()
      modifies comm.session
      ensures Enumerates(order, comm.store.publishers["camera"].Keys)
      ensures comm.session.calls == old(comm.session.calls) + Toggling(comm.store.publishers["camera"], order, "publishVideo", enable)
    {
      LocalAVMethods("video");
      order := ToggleLocal("video", enable);
    }

    /** `toggleRemoteAudio(id, enable)`: 'subscribeToAudio' on the camera
        subscriber stored under `id`; an id not tracked throws. */
    method ToggleRemoteAudio(id: string, enable: bool) returns (r: Outcome)
      requires Valid()
      modifies comm.session
      ensures r.Done? <==> id in comm.store.subscribers["camera"]
      ensures r.Fail? ==> r.error == TypeError && comm.session.calls == old(comm.session.calls)
      ensures r.Done? ==>
        comm.session.calls == old(comm.session.calls) + [SubscriberAV(comm.store.subscribers["camera"][id], "subscribeToAudio", enable)]
    {
      RemoteAVMethods("audio");
      r := comm.EnableRemoteAV(id, "audio", enable);
    }

    /** `toggleRemoteVideo(id, enable)`: 'subscribeToVideo' likewise. */
    method ToggleRemoteVideo(id: string, enable: bool) returns (r: Outcome)
      requires Valid()
      modifies comm.session
      ensures r.Done? <==> id in comm.store.subscribers["camera"]
      ensures r.Fail? ==> r.error == TypeError && comm.session.calls == old(comm.session.calls)
      ensures r.Done? ==>
        comm.session.calls == old(comm.session.calls) + [SubscriberAV(comm.store.subscribers["camera"][id], "subscribeToVideo", enable)]
    {
      RemoteAVMethods("video");
      r := comm.EnableRemoteAV(id, "video", enable);
    }
  }
}
