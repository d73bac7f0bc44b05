# OpenTok accelerator core: session state and event coordination

This project is a Dafny model of the part of the OpenTok accelerator
core that keeps track of a video session and coordinates events. That part
tracks the streams, publishers and subscribers of the session, the event
bus the accelerator packs talk through, and the layer that publishes,
subscribes and ends a call. Dafny proves the model's contracts. The
repository has two near-duplicate copies of this code, and each copy is
modelled separately, as written:

- **The state module** (`sdk-wrapper-react-sample/src/ot-core/state.js`),
  modelled as class `SessionState.Store`. It holds four in-place maps:
  `streams`, `streamMap` (stream id to publisher or subscriber id),
  `publishers` with the buckets `camera` and `screen`, and `subscribers`
  with the buckets `camera`, `screen` and `sip`. The counts are recomputed
  from those maps on every read.
- **The wrapper's `State` class**
  (`sdk-wrapper-react-sample/src/ot-core/sdk-wrapper/state.js`), modelled as
  class `WrapperState.State`. It has no `sip` bucket, `removePublisher`
  leaves the stream map alone, and `removeStream` throws when no subscriber
  is mapped to the stream.
- **The communication layer** (`src/ot-core/communication.js`), modelled as
  class `Communication.Coordinator`. It covers option defaults, admission
  control against a connection limit, idempotent subscription, the
  auto-subscribe gate, the `active` flag of `startCall`/`endCall` and the
  cascade when a stream is destroyed.
- **The core's event bus and facade**
  (`sdk-wrapper-react-sample/src/ot-core/core.js`). The bus is class
  `EventBus.Bus`: a dictionary from event names to insertion-ordered sets
  of callbacks. The facade is class `Core.Facade`. It checks credentials
  and options, wires session and screen-sharing events so that the state
  is updated before the event is re-broadcast, builds the signal object and
  offers the audio/video toggles.
- **The SDK wrapper class**
  (`sdk-wrapper-react-sample/src/ot-core/sdk-wrapper/sdkWrapper.js`),
  modelled as class `SdkWrapper.Wrapper`. It covers listener-argument
  validation, the lookup-or-nothing audio/video toggles, and the
  per-instance `State` that publishing, subscribing and disconnecting
  update.
- **The path helpers** (`src/ot-core/util.js`): `path`, `pathOr` and
  `properCase` over a JSON-like tree (`Util.Json`).

How JavaScript's semantics are modelled:
- `undefined` is `None` in an `Option`.
- A property key that is `undefined` becomes the string `"undefined"`
  (`Js.PropKey`).
- Reading a property of `null` or `undefined` is a `TypeError` outcome.
- An exception thrown inside an engine callback leaves the promise unsettled
  (`Settlement.Hanging`).
- The OpenTok engine is not modelled. Its answers (an error or none, a
  subscriber, a publisher) are parameters. The calls made into it are
  appended to the log of an `Engine.Session`, except the `OT.initSession`
  call and the `session.on` registrations of the core's `init`.
- Bus callbacks are opaque identities. Invoking one appends a record to the
  bus's `calls` log.
- `Object.keys`/`Object.values` loops visit the keys in an unspecified order.
  The proofs hold for every order: `Entities.Enumerates` says each key is
  visited exactly once.

## Model

| member | source | states |
|---|---|---|
| Js.Or | sdk-wrapper-react-sample/src/ot-core/state.js:187 | `a \|\| b` on optional strings: `a` when it is truthy, otherwise `b` |
| Js.Read | sdk-wrapper-react-sample/src/ot-core/state.js:149 | a present key yields its entry and an absent key yields `undefined` |
| Js.CoreError | sdk-wrapper-react-sample/src/ot-core/errors.js:13-20 | a core error carries its type and the message prefixed with "otAccCore: " |
| Js.SdkError | sdk-wrapper-react-sample/src/ot-core/sdk-wrapper/errors.js:13-20 | a wrapper error carries its type and the message prefixed with "otSDK: " |
| Util.Get | src/ot-core/util.js:41 | indexing fails with a TypeError exactly on `null`/`undefined`; an object yields the property or `undefined` |
| Util.Split | src/ot-core/util.js:31 | `split('.')` yields at least one part, and no part contains the separator |
| Util.JoinSplit | src/ot-core/util.js:31 | joining the parts of a split gives back the text |
| Util.SplitWithoutSeparator | src/ot-core/util.js:31 | a text without the separator splits into itself alone |
| Util.SplitAtSeparator | src/ot-core/util.js:31 | splitting `a + sep + b` gives `a` followed by the parts of `b` |
| Util.SplitJoin | src/ot-core/util.js:31 | splitting the join of separator-free parts gives back the parts |
| Util.Properties | src/ot-core/util.js:31 | an array of keys is used as given; a dotted string becomes non-empty parts whose join is the string |
| Util.WalkAppend | src/ot-core/util.js:38-45 | walking `a + b` is walking `a` and then continuing with `b` from where it stopped |
| Util.WalkOneKey | src/ot-core/util.js:41 | a one-key path is one property read |
| Util.WalkTwoKeys | src/ot-core/util.js:38-45 | a two-key path reads the first key, then continues with the second |
| Util.UndefinedStopsWalk | src/ot-core/util.js:42-43 | once a step yields `undefined`, no later key changes the result |
| Util.NullIntermediateThrows | src/ot-core/util.js:41-44 | a `null` reached before the last key is indexed and throws a TypeError |
| Util.Path | src/ot-core/util.js:29-62 | the loop's result equals walking the keys; an empty key list returns the object itself |
| Util.PathOr | src/ot-core/util.js:71-74 | the default exactly when the path gives `undefined`, otherwise the path's result (an error included) |
| Util.PathOrKeepsFalsy | src/ot-core/util.js:71-74 | `null`, `0`, `''` and `false` found on the path are returned, not replaced by the default |
| Util.UpperCase | src/ot-core/util.js:82 | `toUpperCase` on one character: lower-case ASCII letters move to upper case, every other character is kept |
| Util.Capitalized | src/ot-core/util.js:82 | same length, first character upper-cased, the rest unchanged |
| Util.ProperCase | src/ot-core/util.js:81-83 | fails with a TypeError exactly on empty text (`text[0]` is `undefined`), otherwise gives the capitalised text |
| Util.ProperCaseOfTypes | src/ot-core/util.js:81-83 | 'camera', 'screen', 'sip', 'audio' and 'video' become 'Camera', 'Screen', 'Sip', 'Audio' and 'Video' |
| Util.ProperCaseIdempotent | src/ot-core/util.js:81-83 | proper-casing a proper-cased text changes nothing |
| Entities.Put | sdk-wrapper-react-sample/src/ot-core/state.js:178 | `bucket[type][id] = h`: that one entry is set, no bucket is added and every other bucket is unchanged |
| Entities.Drop | sdk-wrapper-react-sample/src/ot-core/state.js:188 | `delete bucket[type][id]`: only that entry goes, and deleting an absent key changes nothing |
| Entities.TotalOfTwo | sdk-wrapper-react-sample/src/ot-core/state.js:56-60 | the publisher total is camera + screen |
| Entities.TotalOfThree | sdk-wrapper-react-sample/src/ot-core/state.js:62-66 | the subscriber total is camera + screen + sip |
| Entities.VideoTypeByPathOr | sdk-wrapper-react-sample/src/ot-core/state.js:148 | `pathOr('sip', 'videoType', stream)` is the stream's video type, or 'sip' when it has none |
| Entities.StreamJsonVideoType | sdk-wrapper-react-sample/src/ot-core/state.js:148 | reading `videoType` from a stream gives its type, or `undefined` |
| Entities.StreamVideoTypeKeys | src/ot-core/communication.js:175 | the path 'stream.videoType' is the two keys `stream` and `videoType` |
| Entities.DottedPair | src/ot-core/util.js:31 | a dotted path of two dot-free names splits into those two names |
| Entities.StreamVideoTypeByPath | src/ot-core/communication.js:175 | `path('stream.videoType', h)` is the handle's stream video type, or `undefined` when it has no stream or the stream has no type |
| Entities.StreamVideoTypeWalk | src/ot-core/util.js:38-45 | walking `stream`, then `videoType`, on a handle gives its stream's video type |
| Entities.SubscriberTypeByPathOr | sdk-wrapper-react-sample/src/ot-core/state.js:209 | `pathOr('sip', 'stream.videoType', subscriber)` is the bucket `SubscriberType` names |
| SessionState.Store.constructor | sdk-wrapper-react-sample/src/ot-core/state.js:12-28 | empty streams and stream map, publisher buckets camera/screen and subscriber buckets camera/screen/sip, all empty |
| SessionState.Store.PubSubCount | sdk-wrapper-react-sample/src/ot-core/state.js:54-69 | each per-type count is its bucket's size; totals are camera + screen and camera + screen + sip |
| SessionState.Store.GetPubSub | sdk-wrapper-react-sample/src/ot-core/state.js:75-77 | a snapshot of the publisher and subscriber maps, with counts that match them |
| SessionState.Store.All | sdk-wrapper-react-sample/src/ot-core/state.js:83-85 | streams and stream map together with the pub/sub snapshot and its matching counts |
| SessionState.Store.AddStream | sdk-wrapper-react-sample/src/ot-core/state.js:139-141 | the stream is stored under its id; no other map changes |
| SessionState.Store.RemoveStream | sdk-wrapper-react-sample/src/ot-core/state.js:147-153 | the stream-map entry goes first; the subscriber the map named is deleted from the `videoType`/'sip' bucket (no-op when unmapped), then the stream; a type with no bucket throws after the stream-map delete |
| SessionState.Store.AddPublisher | sdk-wrapper-react-sample/src/ot-core/state.js:176-179 | maps `streamId` to the id, then files the publisher under its id in the bucket; a missing bucket throws after the map update; other buckets unchanged |
| SessionState.Store.RemovePublisher | sdk-wrapper-react-sample/src/ot-core/state.js:186-190 | deletes the entry under `id \|\| streamMap[streamId]` and then `streamMap[streamId]`; absent keys are no-ops; a missing bucket throws first |
| SessionState.Store.RemovePublishersOf | sdk-wrapper-react-sample/src/ot-core/state.js:196-199 | removing every publisher of one bucket drops their stream ids from the map, leaves other buckets alone and empties the bucket when each entry is filed under its own id |
| SessionState.Store.RemoveAllPublishers | sdk-wrapper-react-sample/src/ot-core/state.js:195-201 | camera then screen: the stream map loses every publisher's stream id; both buckets end empty when entries are filed under their own ids |
| SessionState.Store.AddSubscriber | sdk-wrapper-react-sample/src/ot-core/state.js:207-212 | files under `stream.videoType` (default 'sip') keyed by the subscriber id and maps `stream.id` to it; no stream or an unknown type throws before any change |
| SessionState.Store.RemoveSubscriber | sdk-wrapper-react-sample/src/ot-core/state.js:219-223 | deletes the entry under `id \|\| streamMap[streamId]` and the map entry keyed by `subscriber.streamId` (not `stream.id`) |
| SessionState.Store.RemoveSubscribersOf | sdk-wrapper-react-sample/src/ot-core/state.js:229-232 | removing every subscriber of one bucket: stream ids leave the map, other buckets unchanged, bucket empty when keyed |
| SessionState.Store.RemoveAllSubscribers | sdk-wrapper-react-sample/src/ot-core/state.js:228-234 | camera, screen then sip emptied (when keyed); the stream map loses their stream ids |
| SessionState.Store.Reset | sdk-wrapper-react-sample/src/ot-core/state.js:239-247 | streams and stream map end empty; every publisher and subscriber bucket ends empty when keyed |
| WrapperState.State.constructor | sdk-wrapper-react-sample/src/ot-core/sdk-wrapper/state.js:8-31 | empty streams and stream map; publisher and subscriber buckets camera/screen, all empty |
| WrapperState.State.PubSubCount | sdk-wrapper-react-sample/src/ot-core/sdk-wrapper/state.js:84-102 | per-type counts are bucket sizes; both totals are camera + screen |
| WrapperState.State.GetPubSub | sdk-wrapper-react-sample/src/ot-core/sdk-wrapper/state.js:110-115 | a snapshot of the publisher and subscriber maps, with counts that match them |
| WrapperState.State.All | sdk-wrapper-react-sample/src/ot-core/sdk-wrapper/state.js:183-188 | the pub/sub snapshot together with `streams` and `streamMap` |
| WrapperState.State.AddPublisher | sdk-wrapper-react-sample/src/ot-core/sdk-wrapper/state.js:118-121 | maps `streamId` to the id and files the publisher; an unknown type throws after the map update |
| WrapperState.State.RemovePublisher | sdk-wrapper-react-sample/src/ot-core/sdk-wrapper/state.js:124-127 | deletes only the entry under `id \|\| streamMap[streamId]`; the stream map is untouched |
| WrapperState.State.RemoveAllPublishers | sdk-wrapper-react-sample/src/ot-core/sdk-wrapper/state.js:130-133 | both publisher buckets are replaced by empty maps; the stream map is unchanged |
| WrapperState.State.AddSubscriber | sdk-wrapper-react-sample/src/ot-core/sdk-wrapper/state.js:136-141 | files under `stream.videoType` with no 'sip' default and maps `stream.id` to the subscriber id; a missing stream or type throws |
| WrapperState.State.RemoveSubscriber | sdk-wrapper-react-sample/src/ot-core/sdk-wrapper/state.js:144-150 | deletes `subscribers[stream.videoType][id]` and nothing else; an absent subscriber (`{}`) or type throws |
| WrapperState.State.AddStream | sdk-wrapper-react-sample/src/ot-core/sdk-wrapper/state.js:153-155 | stores the stream under its id; nothing else changes |
| WrapperState.State.RemoveStream | sdk-wrapper-react-sample/src/ot-core/sdk-wrapper/state.js:158-164 | deletes `streamMap[id]` and `streams[id]`, then the mapped subscriber; it throws exactly when no filed subscriber is mapped |
| WrapperState.State.Reset | sdk-wrapper-react-sample/src/ot-core/sdk-wrapper/state.js:175-180 | streams, stream map and all four buckets end empty |
| EventBus.NameList | sdk-wrapper-react-sample/src/ot-core/core.js:73 | a single name is a one-element list; an array is used as given |
| EventBus.Register | sdk-wrapper-react-sample/src/ot-core/core.js:74-78 | a new name gets an empty set; an existing name keeps its callbacks |
| EventBus.RegisterAll | sdk-wrapper-react-sample/src/ot-core/core.js:72-79 | every name is registered; existing sets keep their callbacks; only listed names are added, with empty sets |
| EventBus.RegisterNames | sdk-wrapper-react-sample/src/ot-core/core.js:73-78 | the loop over the names computes `RegisterAll` |
| EventBus.RegisterAllKeepsSets | sdk-wrapper-react-sample/src/ot-core/core.js:72-79 | registering keeps every callback list free of duplicates |
| EventBus.Insert | sdk-wrapper-react-sample/src/ot-core/core.js:97 | `Set.add`: a callback already present changes nothing, a new one goes last; no duplicates arise |
| EventBus.Removed | sdk-wrapper-react-sample/src/ot-core/core.js:125 | `Set.delete`: exactly that callback leaves, order kept; an absent one changes nothing |
| EventBus.Cleared | sdk-wrapper-react-sample/src/ot-core/core.js:114-118 | `off()` empties every set but keeps every name |
| EventBus.Dispatch | sdk-wrapper-react-sample/src/ot-core/core.js:141-143 | one call per callback, in insertion order, each with `(data, name)` |
| EventBus.OnName | sdk-wrapper-react-sample/src/ot-core/core.js:88-104 | `on(name, cb)` adds to a registered name's set and stores nothing for an unregistered name |
| EventBus.OnAll | sdk-wrapper-react-sample/src/ot-core/core.js:89-93 | `on(object)` registers no new name and keeps the sets duplicate-free |
| EventBus.OnAllAdds | sdk-wrapper-react-sample/src/ot-core/core.js:89-93 | after `on(object)` every old callback is still there and every pair on a registered name has been added |
| EventBus.OnAllKeepsUnregistered | sdk-wrapper-react-sample/src/ot-core/core.js:96-98 | a name that was not registered is still not registered |
| EventBus.OffSilences | sdk-wrapper-react-sample/src/ot-core/core.js:120-126 | after `off(name, cb)`, triggering the name never calls `cb` |
| EventBus.Triggering | sdk-wrapper-react-sample/src/ot-core/core.js:135-145 | an unregistered name is registered empty and calls nothing; a registered one calls its set in order |
| EventBus.TriggeringAllRecords | sdk-wrapper-react-sample/src/ot-core/core.js:135-145 | a run of triggers records the events in order, loses no name and keeps the sets duplicate-free |
| EventBus.TriggeringAllAppend | sdk-wrapper-react-sample/src/ot-core/core.js:135-145 | triggering `a` then `b` is triggering `a + b` |
| EventBus.Bus.constructor | sdk-wrapper-react-sample/src/ot-core/core.js:72-79 | no names registered, nothing called or triggered |
| EventBus.Bus.RegisterEvents | sdk-wrapper-react-sample/src/ot-core/core.js:72-79 | the listeners become `RegisterAll` of the old ones; nothing is called |
| EventBus.Bus.On | sdk-wrapper-react-sample/src/ot-core/core.js:95-103 | the listeners become `OnName` of the old ones |
| EventBus.Bus.OnEach | sdk-wrapper-react-sample/src/ot-core/core.js:89-93 | the listeners become `OnAll` of the old ones over the object's pairs |
| EventBus.Bus.Off | sdk-wrapper-react-sample/src/ot-core/core.js:112-128 | no arguments clears every set; `(name, cb)` removes only `cb`; an unregistered name changes nothing |
| EventBus.Bus.TriggerEvent | sdk-wrapper-react-sample/src/ot-core/core.js:135-145 | the new bus state is `Triggering` of the old one |
| Engine.Toggling | sdk-wrapper-react-sample/src/ot-core/core.js:557-568 | one audio/video call per visited publisher, in visiting order |
| Credentials.FirstMissing | sdk-wrapper-react-sample/src/ot-core/core.js:421-426 | the loop stops at the first name that is not a truthy property; none missing gives None; `null` throws a TypeError |
| Credentials.EmptyLacksApiKey | sdk-wrapper-react-sample/src/ot-core/core.js:419 | the defaults `[]` and `{}` are reported as lacking `apiKey` |
| Communication.Assign | src/ot-core/communication.js:201 | `Object.assign({}, a, b)`: the keys of both, `b`'s value winning |
| Communication.ScreenDefaultsExtendCallDefaults | src/ot-core/communication.js:41-49 | the default screen properties are the call defaults plus `videoSource: 'window'` |
| Communication.ValidateOptions | src/ot-core/communication.js:187-202 | fails with invalidParameters exactly when `accPack` is falsy; call/screen properties default when falsy; a falsy limit becomes none; `autoSubscribe` is true when absent, else its own truthiness |
| Communication.AutoSubscribeDefault | src/ot-core/communication.js:199 | only an absent key turns auto-subscription on; an explicit `undefined` or `false` turns it off |
| Communication.CameraCountAddCamera | src/ot-core/communication.js:70-72 | a new camera stream adds one to the number of camera streams |
| Communication.CameraCountAddOther | src/ot-core/communication.js:70-72 | a stream of another type leaves that number unchanged |
| Communication.AbleToJoinLimit | src/ot-core/communication.js:65-74 | with no limit anyone joins; the camera stream that reaches the limit shuts the next party out |
| Communication.PublishErrorMessage | src/ot-core/communication.js:120 | code 1010 gives the network message, any other error its own message |
| Communication.SubscribeProperties | src/ot-core/communication.js:149 | camera streams use the call properties, every other type the screen properties |
| Communication.EventNamesOfTypes | src/ot-core/communication.js:156-157 | a subscription announces 'subscribeToCamera'/'Screen'/'Sip' with the snapshot (screen adds 'startViewingSharedScreen'); a destroyed stream announces the matching 'unsubscribeFrom…' |
| Communication.SubscribeEventsAreNotStartCall | src/ot-core/communication.js:156-157 | no subscription event is 'startCall' |
| Communication.LocalAVMethod | src/ot-core/communication.js:334 | 'publish' + properCase(source); an empty source throws |
| Communication.RemoteAVMethod | src/ot-core/communication.js:349 | 'subscribeTo' + properCase(source); an empty source throws |
| Communication.SourceNames | src/ot-core/util.js:81-83 | the sources that proper-case to a given word are the word and its lower-case-initial form |
| Communication.LocalAVMethods | src/ot-core/communication.js:333-340 | exactly 'audio'/'Audio' name 'publishAudio' and 'video'/'Video' name 'publishVideo' |
| Communication.RemoteAVMethods | src/ot-core/communication.js:348-355 | exactly 'audio'/'Audio' name 'subscribeToAudio' and 'video'/'Video' name 'subscribeToVideo' |
| Communication.UnsubscribeKindAsWritten | src/ot-core/communication.js:175 | the bucket key `path('stream.videoType', subscriber)` yields: the type, or "undefined" |
| Communication.SipUnsubscribeAsWrittenThrows | src/ot-core/communication.js:175-176 | for a SIP subscriber the path is `undefined`, so the bucket key is "undefined", which names no bucket |
| Communication.UnsubscribeKind | sdk-wrapper-react-sample/src/ot-core/state.js:209 | the corrected key: `pathOr('sip', …)`, the bucket the subscriber was filed in |
| Communication.UnsubscribeKindsAgree | src/ot-core/communication.js:175 | as written and corrected agree on every subscriber not filed under 'sip' |
| Communication.PromiseAll | src/ot-core/communication.js:297 | resolves iff every subscription resolved; rejects iff one rejected, with one of the failures |
| Communication.Unpublishing | src/ot-core/communication.js:317-318 | one `unpublish` call per visited publisher, in order |
| Communication.Unsubscribing | src/ot-core/communication.js:320-321 | one `unsubscribe` call per visited subscriber, in order |
| Communication.StartCallEvents | src/ot-core/communication.js:283-297 | 'startCall' with the call data is announced iff every initial subscription resolved |
| Communication.SubscribeOutcome | src/ot-core/communication.js:134-165 | a subscription rejects iff the stream is unmapped and the engine answers with an error (that error); it resolves iff the stream is mapped or the reply is `Subscribable`; otherwise it never settles, after a TypeError |
| Communication.SubscribeStep | src/ot-core/communication.js:134-165 | one subscription keeps the bucket names and appends exactly the promise `SubscribeOutcome` gives for the stream map it started from |
| Communication.Filed | src/ot-core/communication.js:154-158 | a successful callback files the subscriber and maps its stream without adding engine calls or promises |
| Communication.SubscribeStepFrame | src/ot-core/communication.js:134-165 | a subscription's promise and events are appended to those already there, independent of them |
| Communication.SubscribeAll | src/ot-core/communication.js:268-275 | subscribing to each stream of an order keeps the bucket names and yields one promise per stream |
| Communication.SubscribeAllOutcome | src/ot-core/communication.js:268-275 | the i-th initial promise is `SubscribeOutcome` of the i-th stream and its reply, on the stream map the earlier subscriptions left |
| Communication.SubscribeAllResolves | src/ot-core/communication.js:297 | `Promise.all` of the initial subscriptions resolves iff `AllResolve`: every stream is mapped at its turn or its reply can be filed |
| Communication.SubscribableRepliesResolve | src/ot-core/communication.js:297 | when every stream's reply succeeds with a fileable subscriber, the initial subscriptions resolve in any order |
| Communication.FirstErrorRejects | src/ot-core/communication.js:297 | an unmapped first stream answered with an error makes `Promise.all` reject |
| Communication.InitiallySubscribedResolves | src/ot-core/communication.js:266-297 | the initial subscriptions all resolve iff auto-subscribe is off or `AllResolve` holds of the replies |
| Communication.Coordinator.constructor | src/ot-core/communication.js:28-35 | nothing set, no call active |
| Communication.Coordinator.Init | src/ot-core/communication.js:364-371 | an invalid option rejects with nothing set; otherwise the settings are `ValidateOptions`'s and the two stream listeners are put on the bus |
| Communication.Coordinator.Subscribe | src/ot-core/communication.js:134-165 | `Subscribed`: the new subscribers, stream map, engine calls, promise and events are exactly one `SubscribeStep` from the old state, and the bus has seen those events in order |
| Communication.Coordinator.AnnounceSubscription | src/ot-core/communication.js:154-158 | 'subscribeTo' + the proper-cased type with the subscriber and the state, then 'startViewingSharedScreen' for screens; a type of '' throws and the promise never settles |
| Communication.Coordinator.Unsubscribe | src/ot-core/communication.js:172-181 | removes the subscriber from the bucket it was filed in; once initialised, tells the engine and resolves; before `init` the removal stands, no engine call is made and it rejects with a TypeError; a missing bucket rejects with the state unchanged (corrected key, see Findings) |
| Communication.Coordinator.OnStreamCreated | src/ot-core/communication.js:215-218 | subscribes iff a call is active and auto-subscribe is on; otherwise nothing changes |
| Communication.Coordinator.OnStreamDestroyed | src/ot-core/communication.js:224-231 | removes the stream first, then announces 'endViewingSharedScreen' (screens only) and 'unsubscribeFrom<Type>' with the pub/sub snapshot |
| Communication.Coordinator.Announce | src/ot-core/communication.js:228-230 | the legacy screen event, then 'unsubscribeFrom<Type>' |
| Communication.Coordinator.SubscribeToStreams | src/ot-core/communication.js:268-275 | the state, engine calls, promises and events are `SubscribeAll` over some order of the stream keys, replies taken per key; no 'startCall' is emitted |
| Communication.Coordinator.InitialSubscriptions | src/ot-core/communication.js:266-280 | `InitiallySubscribed`: with auto-subscribe off a single resolved promise and nothing else; otherwise exactly `SubscribeAll` over an order of the stream keys |
| Communication.Coordinator.Settle | src/ot-core/communication.js:283-297 | all resolved: 'startCall', `active` set, resolve with the call data; a rejection: resolve with the data, `active` unchanged, no 'startCall' |
| Communication.Coordinator.JoinCall | src/ot-core/communication.js:264-298 | the camera publisher is stored, the initial subscriptions run from that state as `InitiallySubscribed` says, and the call settles as `Settle` says on their promises |
| Communication.Coordinator.PublishCamera | src/ot-core/communication.js:99-127 | a publish error emits 'error' with `PublishErrorMessage` and rejects, leaving the state; success joins the call, its subscriptions tied to the replies by `InitiallySubscribed` |
| Communication.Coordinator.CreatePublisher | src/ot-core/communication.js:81-92 | the publisher properties are `Object.assign({}, callProperties, props)`; an init error emits 'error' and rejects before any publish; otherwise it publishes and joins as `PublishCamera` says, from the state with both engine calls logged |
| Communication.Coordinator.StartCall | src/ot-core/communication.js:246-302 | over the limit: 'error' "Session has reached its connection limit" and a connectionLimit rejection before any engine call; otherwise create, publish and join; the call becomes active and 'startCall' is announced iff auto-subscribe is off or `AllResolve` holds of the engine's replies |
| Communication.Coordinator.UnpublishAll | src/ot-core/communication.js:317-318 | every publisher of a bucket is unpublished once, store unchanged |
| Communication.Coordinator.UnsubscribeNext | src/ot-core/communication.js:172-181 | one step of the unsubscribe pass: that subscriber leaves its bucket and the map, one engine call appended |
| Communication.Coordinator.UnsubscribeAll | src/ot-core/communication.js:320-321 | every subscriber of a bucket is unsubscribed once; the bucket ends empty when keyed; other buckets unchanged |
| Communication.Coordinator.UnpublishEverything | src/ot-core/communication.js:317-318 | camera then screen publishers are unpublished |
| Communication.Coordinator.UnsubscribeEverything | src/ot-core/communication.js:320-321 | camera then screen subscribers are unsubscribed; the sip bucket is left alone |
| Communication.Coordinator.ClearCall | src/ot-core/communication.js:310-322 | unpublish all, unsubscribe camera and screen only, then clear the publishers |
| Communication.Coordinator.Leave | src/ot-core/communication.js:323-324 | `active` becomes false and 'endCall' is announced |
| Communication.Coordinator.EndCall | src/ot-core/communication.js:307-326 | the call is cleared as `CallCleared` says, `active` is false and 'endCall' is announced last |
| Communication.Coordinator.EnableLocalAV | src/ot-core/communication.js:333-340 | calls 'publish' + properCase(source) on the tracked camera publisher; an untracked id or a method it lacks throws |
| Communication.Coordinator.EnableRemoteAV | src/ot-core/communication.js:348-355 | calls 'subscribeTo' + properCase(source) on the tracked camera subscriber; otherwise throws |
| Core.ValidateCredentials | sdk-wrapper-react-sample/src/ot-core/core.js:418-427 | passes iff `apiKey`, `sessionId` and `token` are truthy; otherwise invalidParameters naming the first missing one (`apiKey` for an omitted argument); `null` throws a TypeError |
| Core.CheckInit | sdk-wrapper-react-sample/src/ot-core/core.js:616-622 | missing options throw invalidParameters; otherwise the credentials are validated |
| Core.LoadPackages | sdk-wrapper-react-sample/src/ot-core/core.js:312-320 | fails iff some known pack cannot be loaded, with the first such pack's missingDependency error; otherwise records the proper-cased known names |
| Core.LoadedNamesCons | sdk-wrapper-react-sample/src/ot-core/core.js:313-319 | the packs recorded for a list are those of its head and of its tail |
| Core.MissingTextChat | sdk-wrapper-react-sample/src/ot-core/core.js:298-300 | asking for 'textChat' without its module fails with "Could not load opentok-text-chat" |
| Core.SignalObject | sdk-wrapper-react-sample/src/ot-core/core.js:535-540 | `type`, the serialised data and `to` each present iff its argument is truthy |
| Core.Token | sdk-wrapper-react-sample/src/ot-core/core.js:438-439 | the token of complete credentials is their truthy `token` property |
| Core.Facade.constructor | sdk-wrapper-react-sample/src/ot-core/state.js:30-32 | no credentials, no options, not initialised |
| Core.Facade.Init | sdk-wrapper-react-sample/src/ot-core/core.js:616-633 | the outcome is `CheckInit`; a failure changes nothing; success registers the event names and a new pair of screen-sharing listeners for this `init`, and keeps credentials and options |
| Core.ScreenSharingListenersFresh | sdk-wrapper-react-sample/src/ot-core/core.js:209-228 | the listeners of two different `init` calls are different callbacks, so a repeated `init` adds a second pair |
| Core.Facade.OnSessionEvent | sdk-wrapper-react-sample/src/ot-core/core.js:181-191 | 'streamCreated' adds the stream and 'streamDestroyed' removes it before the event is re-broadcast under its own name; a throwing update broadcasts nothing and leaves the store as the throw found it (a destroyed stream's map entry already gone) |
| Core.Facade.OnStartScreenSharing | sdk-wrapper-react-sample/src/ot-core/core.js:209-219 | the publisher is filed under 'screen' before 'startScreenShare' is emitted with it and the snapshot |
| Core.Facade.OnEndScreenSharing | sdk-wrapper-react-sample/src/ot-core/core.js:221-228 | the screen publisher is removed before 'endScreenShare' is emitted with the snapshot |
| Core.Facade.Connect | sdk-wrapper-react-sample/src/ot-core/core.js:433-457 | connects with the token; an error rejects; an unloadable pack never settles; otherwise 'connected' and the connection count |
| Core.Facade.Disconnect | sdk-wrapper-react-sample/src/ot-core/core.js:463-468 | before `init` it throws a TypeError with no engine call and the store untouched; otherwise the engine is told first, then the store is reset: streams and stream map empty, every count zero when keyed |
| Core.Facade.Signal | sdk-wrapper-react-sample/src/ot-core/core.js:535-551 | before `init` it rejects with a TypeError and makes no engine call; otherwise sends `SignalObject`, and the engine's error rejects, otherwise resolves |
| Core.Facade.ToggleLocal | sdk-wrapper-react-sample/src/ot-core/core.js:557-585 | `enableLocalAV` on every camera publisher, each visited once |
| Core.Facade.ToggleLocalAudio | sdk-wrapper-react-sample/src/ot-core/core.js:557-568 | 'publishAudio' on every camera publisher |
| Core.Facade.ToggleLocalVideo | sdk-wrapper-react-sample/src/ot-core/core.js:574-585 | 'publishVideo' on every camera publisher |
| Core.Facade.ToggleRemoteAudio | sdk-wrapper-react-sample/src/ot-core/core.js:592-596 | 'subscribeToAudio' on the camera subscriber with that id; an unknown id throws |
| Core.Facade.ToggleRemoteVideo | sdk-wrapper-react-sample/src/ot-core/core.js:603-607 | 'subscribeToVideo' on the camera subscriber with that id; an unknown id throws |
| SdkWrapper.ValidateCredentials | sdk-wrapper-react-sample/src/ot-core/sdk-wrapper/sdkWrapper.js:31-41 | returns the credentials unchanged iff complete; otherwise invalidParameters for the first missing one |
| SdkWrapper.SameCredentialCheck | sdk-wrapper-react-sample/src/ot-core/sdk-wrapper/sdkWrapper.js:31-41 | the wrapper and the core accept the same credentials and name the same missing one |
| SdkWrapper.BindListener | sdk-wrapper-react-sample/src/ot-core/sdk-wrapper/sdkWrapper.js:62-68 | binds iff the event is a string and the callback a function; otherwise invalidParameters |
| SdkWrapper.Binding | sdk-wrapper-react-sample/src/ot-core/sdk-wrapper/sdkWrapper.js:77-95 | every pair before the first non-function is bound in order; that one throws; all bound when none |
| SdkWrapper.ListenCalls | sdk-wrapper-react-sample/src/ot-core/sdk-wrapper/sdkWrapper.js:67 | one `on` call on the target per bound pair, in order |
| SdkWrapper.FindSubscriber | sdk-wrapper-react-sample/src/ot-core/sdk-wrapper/sdkWrapper.js:236-237 | found iff the id the stream map names is in the camera or the screen bucket |
| SdkWrapper.FindsAddedSubscriber | sdk-wrapper-react-sample/src/ot-core/sdk-wrapper/sdkWrapper.js:231-239 | a camera subscriber just added is the one found for its stream |
| SdkWrapper.SubscriberMethodAsWritten | sdk-wrapper-react-sample/src/ot-core/sdk-wrapper/sdkWrapper.js:231-257 | as written: audio calls 'subscribeToVideo' and video calls 'subscribeToAudio' |
| SdkWrapper.SubscriberMethod | sdk-wrapper-react-sample/src/ot-core/sdk-wrapper/sdkWrapper.js:231-257 | corrected: 'subscribeTo' + the capitalised source |
| SdkWrapper.SubscriberMethodsSwapped | sdk-wrapper-react-sample/src/ot-core/sdk-wrapper/sdkWrapper.js:231-257 | as written, each method is the other source's method and never its own |
| SdkWrapper.SdkSignal | sdk-wrapper-react-sample/src/ot-core/sdk-wrapper/sdkWrapper.js:448-449 | type and serialised data always present; `to` only when truthy |
| SdkWrapper.SignalsAgree | sdk-wrapper-react-sample/src/ot-core/sdk-wrapper/sdkWrapper.js:448-449 | the wrapper's signal equals the core's when type and data are truthy and differs when the data is falsy |
| SdkWrapper.Previewed | sdk-wrapper-react-sample/src/ot-core/sdk-wrapper/sdkWrapper.js:305-306 | the publisher is filed under its stream's `videoType` when that bucket exists; otherwise nothing changes |
| SdkWrapper.PreviewedMap | sdk-wrapper-react-sample/src/ot-core/sdk-wrapper/sdkWrapper.js:305-306 | the stream map maps the publisher's `streamId` to its id once it has a stream |
| SdkWrapper.PreviewSettlement | sdk-wrapper-react-sample/src/ot-core/sdk-wrapper/sdkWrapper.js:303-308 | an error rejects however the filing goes; otherwise resolves with the publisher, or hangs when filing throws |
| SdkWrapper.UnpublishUndoesPreview | sdk-wrapper-react-sample/src/ot-core/sdk-wrapper/sdkWrapper.js:298-324 | removing a publisher that `publishPreview` filed under its own id, by its stream's type, gives the same buckets as removing it from the buckets before the preview |
| SdkWrapper.Wrapper.constructor | sdk-wrapper-react-sample/src/ot-core/sdk-wrapper/sdkWrapper.js:110-117 | fresh empty state and session; exactly the two stream listeners are attached |
| SdkWrapper.Wrapper.Create | sdk-wrapper-react-sample/src/ot-core/sdk-wrapper/sdkWrapper.js:110-117 | incomplete credentials throw the validation error; complete ones give a wrapper that keeps them |
| SdkWrapper.Wrapper.StreamCreated | sdk-wrapper-react-sample/src/ot-core/sdk-wrapper/sdkWrapper.js:146-149 | while the store's listener is on, the stream is stored and an event without one throws; after `connect` removed it, nothing changes |
| SdkWrapper.Wrapper.StreamDestroyed | sdk-wrapper-react-sample/src/ot-core/sdk-wrapper/sdkWrapper.js:150-153 | while the store's listener is on, the stream is removed as `State.RemoveStream` says; after `connect` removed it, nothing changes |
| SdkWrapper.Wrapper.BindListeners | sdk-wrapper-react-sample/src/ot-core/sdk-wrapper/sdkWrapper.js:77-95 | the engine receives `ListenCalls` of `Binding`; it fails iff `Binding` stops at a non-function |
| SdkWrapper.Wrapper.On | sdk-wrapper-react-sample/src/ot-core/sdk-wrapper/sdkWrapper.js:167-173 | one object binds its pairs; `null` throws; two arguments bind one pair; anything else does nothing |
| SdkWrapper.Wrapper.EnablePublisherAV | sdk-wrapper-react-sample/src/ot-core/sdk-wrapper/sdkWrapper.js:202-204 | the method on every camera publisher, each once |
| SdkWrapper.Wrapper.EnablePublisherAudio | sdk-wrapper-react-sample/src/ot-core/sdk-wrapper/sdkWrapper.js:198-205 | 'publishAudio' on every camera publisher |
| SdkWrapper.Wrapper.EnablePublisherVideo | sdk-wrapper-react-sample/src/ot-core/sdk-wrapper/sdkWrapper.js:214-221 | 'publishVideo' on every camera publisher |
| SdkWrapper.Wrapper.EnableSubscriberAV | sdk-wrapper-react-sample/src/ot-core/sdk-wrapper/sdkWrapper.js:236-238 | the method on the subscriber `FindSubscriber` finds, or no call |
| SdkWrapper.Wrapper.EnableSubscriberAudio | sdk-wrapper-react-sample/src/ot-core/sdk-wrapper/sdkWrapper.js:231-239 | as written: 'subscribeToVideo' on the found subscriber, or nothing (see Findings) |
| SdkWrapper.Wrapper.EnableSubscriberVideo | sdk-wrapper-react-sample/src/ot-core/sdk-wrapper/sdkWrapper.js:249-257 | as written: 'subscribeToAudio' on the found subscriber, or nothing (see Findings) |
| SdkWrapper.Wrapper.EnableSubscriberAudioIntended | sdk-wrapper-react-sample/src/ot-core/sdk-wrapper/sdkWrapper.js:231-239 | corrected: 'subscribeToAudio' on the found subscriber, or nothing |
| SdkWrapper.Wrapper.EnableSubscriberVideoIntended | sdk-wrapper-react-sample/src/ot-core/sdk-wrapper/sdkWrapper.js:249-257 | corrected: 'subscribeToVideo' on the found subscriber, or nothing |
| SdkWrapper.Wrapper.PublishPreview | sdk-wrapper-react-sample/src/ot-core/sdk-wrapper/sdkWrapper.js:298-310 | publishes, then files the publisher even after an error; settles as `PreviewSettlement` |
| SdkWrapper.Wrapper.Publish | sdk-wrapper-react-sample/src/ot-core/sdk-wrapper/sdkWrapper.js:271-288 | an init error rejects; listeners that cannot be bound reject; a preview resolves with the publisher; otherwise it settles as `PublishPreview` does |
| SdkWrapper.Wrapper.Unpublish | sdk-wrapper-react-sample/src/ot-core/sdk-wrapper/sdkWrapper.js:319-324 | the engine is told, then the publisher is removed from its stream's `videoType` bucket; no stream throws first |
| SdkWrapper.Wrapper.Subscribe | sdk-wrapper-react-sample/src/ot-core/sdk-wrapper/sdkWrapper.js:339-354 | an engine error rejects with the state unchanged; on success the subscriber is added to state, then its listeners are bound; a subscriber that cannot be filed, or a listener that cannot be bound, leaves the promise unsettled |
| SdkWrapper.Wrapper.Unsubscribe | sdk-wrapper-react-sample/src/ot-core/sdk-wrapper/sdkWrapper.js:364-373 | the engine is told, then the subscriber is removed from its stream type's bucket and the call resolves; a subscriber with no stream or an unknown type rejects |
| SdkWrapper.Wrapper.Connect | sdk-wrapper-react-sample/src/ot-core/sdk-wrapper/sdkWrapper.js:384-396 | all session listeners go off, the store's own included, so the store stops following streams; then the given listeners are bound (a non-function throws before any connect), then the engine connects with the token, and its error rejects |
| SdkWrapper.Wrapper.ConnectKeepingListeners | sdk-wrapper-react-sample/src/ot-core/sdk-wrapper/sdkWrapper.js:384-396 | corrected: as `connect`, but the store's two listeners are put back right after the `off`, so the store keeps following streams |
| SdkWrapper.StreamUntrackedAfterConnect | sdk-wrapper-react-sample/src/ot-core/sdk-wrapper/sdkWrapper.js:387 | as written: a stream created after `connect` never reaches a fresh wrapper's store |
| SdkWrapper.StreamTrackedAfterConnect | sdk-wrapper-react-sample/src/ot-core/sdk-wrapper/sdkWrapper.js:146-149 | corrected: with the listeners kept, that stream is stored |
| SdkWrapper.Wrapper.Signal | sdk-wrapper-react-sample/src/ot-core/sdk-wrapper/sdkWrapper.js:445-455 | sends `SdkSignal`; the engine's error rejects, otherwise resolves |
| SdkWrapper.Wrapper.Disconnect | sdk-wrapper-react-sample/src/ot-core/sdk-wrapper/sdkWrapper.js:463-466 | the engine is told, then the state is reset and every count is zero |

## Left out

- The OpenTok engine (`OT.initSession`, `OT.initPublisher`, `session.*`): its answers are parameters and its calls are logged. The engine's own behaviour is not modelled.
- `isMe`, `forceDisconnect`, `forceUnpublish`, the `off` pass-through and `state()` of the wrapper class. Each is a one-line delegation to the engine or to `State.all`, which is modelled.
- Plugin construction and the `optionalRequire` try-require/global fallback of `initPackages`: which modules load is a parameter of `Core.LoadPackages`. The `communication.init` call inside `initPackages` is not repeated in `Core.Facade.Connect`.
- The annotation calls (`annotation.start`, `linkCanvas`, `end`) and the `usingAnnotation` listeners.
- DOM lookups and stream containers, `JSON.parse`, `JSON.stringify` (an opaque `Stringify`), and analytics logging (`src/ot-core/logging.js`).
- `OT.initSession` and the core's `session.on` registrations in `init` are not logged: the core's session listener is `Core.Facade.OnSessionEvent`, called directly.
- The events module that lists the accelerator's event names is not part of this model. Those names are a parameter of `Core.Facade.Init`.
- Promise and microtask scheduling: every promise callback runs to completion in program order, so each initial subscription's stream-map check sees the subscriptions filed before it. Concurrency among the initial subscriptions is not modelled.
- Insertion order of object keys: the `Object.keys`/`Object.values` loops are proved for every visiting order.
- Listener arrays whose elements are not objects, and the `callback.bind(context)` wrapper: a bound callback is identified with the callback.
- SessionState.Store.RemovePublishersOf: the bucket is proved empty only when every entry is filed under its own id, because `removePublisher` deletes by `publisher.id`.
- SessionState.Store.RemoveAllPublishers: empty buckets are proved under the same keyedness condition.
- SessionState.Store.RemoveSubscribersOf: same keyedness condition.
- SessionState.Store.RemoveAllSubscribers: same keyedness condition.
- SessionState.Store.Reset: the buckets are proved empty under the same keyedness condition; streams and stream map are always empty.
- Communication.Coordinator.UnsubscribeAll: the bucket is proved empty under the same keyedness condition.
- Core.Facade.Disconnect: zero counts are proved under the same keyedness condition.
- Core.Facade.ToggleLocal: the order of the calls is any order that visits each camera publisher once, not the insertion order.
- SdkWrapper.Wrapper.EnablePublisherAV: same visiting order.
- Read: `Js.Read` treats every key as an own property; a key inherited from `Object.prototype` is not modelled.
- UpperCase: `Util.UpperCase` maps only the ASCII letters 'a' to 'z'. JavaScript's `toUpperCase` also maps other letters ('é' to 'É') and can lengthen the text ('ß' to "SS").
- Capitalized: for the same reason `Util.Capitalized` keeps the length, which JavaScript does not for a leading 'ß'.
- GetPubSub: `SessionState.Store.GetPubSub` and `WrapperState.State.GetPubSub` return values. The source hands out its live maps, so a payload such as 'startCall' or 'subscribeTo…' would see later changes to the state, including a `reset`; that aliasing is not modelled.
- All: `SessionState.Store.All` and `WrapperState.State.All` are value snapshots in the same way, where the source returns live references.
- Communication.Coordinator.EnableLocalAV: the engine's publisher is modelled as having exactly the methods 'publishAudio' and 'publishVideo'. Any other name throws.
- Communication.Coordinator.EnableRemoteAV: the engine's subscriber is likewise modelled as having exactly 'subscribeToAudio' and 'subscribeToVideo'.

## Findings

| source | as written | input that shows it | evidently intended | confidence | as-written member | corrected member |
|---|---|---|---|---|---|---|
| src/ot-core/communication.js:175-176 | `unsubscribe` names the bucket with `path('stream.videoType', subscriber)`, which has no 'sip' default | a subscriber to a SIP stream (its stream has no `videoType`): the key is `undefined`, `subscribers[undefined]` is missing, and the `delete` on it throws, so the promise rejects and the subscriber stays in the 'sip' bucket | the same `pathOr('sip', 'stream.videoType', …)` that `addSubscriber` used to file it | not executed | Communication.SipUnsubscribeAsWrittenThrows | Communication.UnsubscribeKind |
| sdk-wrapper-react-sample/src/ot-core/sdk-wrapper/sdkWrapper.js:231-257 | `enableSubscriberAudio` calls `subscribeToVideo` and `enableSubscriberVideo` calls `subscribeToAudio` | `enableSubscriberAudio(streamId, false)` on a mapped camera subscriber turns its video off and leaves its audio on | each toggle calls the method named after its own source, as `enablePublisherAudio`/`Video` do | not executed | SdkWrapper.SubscriberMethodsSwapped | SdkWrapper.Wrapper.EnableSubscriberAudioIntended |
| sdk-wrapper-react-sample/src/ot-core/sdk-wrapper/sdkWrapper.js:387 | `connect` calls `this.off()` with no arguments, which removes every session listener, including the store's own 'streamCreated' and 'streamDestroyed' listeners set at lines 146-153 | create a wrapper, `connect()`, then let the session announce a new stream: it never enters the store, and a destroyed stream's subscriber is never removed | the listeners bound by earlier `connect` calls go, but the store keeps following the session's streams | medium, not executed | SdkWrapper.StreamUntrackedAfterConnect | SdkWrapper.StreamTrackedAfterConnect |
