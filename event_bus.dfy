/**
  The accelerator core's event bus: a dictionary from event name to an
  insertion-ordered set of callbacks. Callbacks are application code; the
  model gives each an identity and records every invocation the bus makes
  (callback, data, event name), in order.
 */
module EventBus {
  import opened Js

  /** A listener function, by identity. */
  datatype Callback = Callback(id: nat)

  /** One invocation `callback(data, event)`. */
  datatype Call<D> = Call(callback: Callback, data: D, event: string)

  /** One `triggerEvent(name, data)`. */
  datatype Event<D> = Event(name: string, data: D)

  /** `eventListeners`: event name to its callbacks, oldest first. */
  type Listeners = map<string, seq<Callback>>

  /** The argument of `registerEvents`: one name or an array of names. */
  datatype Names = One(name: string) | Many(names: seq<string>)

  function NameList(events: Names): (names: seq<string>)
    ensures events.One? ==> names == [events.name]
    ensures events.Many? ==> names == events.names
  {
    match events
    case One(name) => [name]
    case Many(names) => names
  }

  /** A Set holds each value once. */
  predicate NoDup(s: seq<Callback>)
  {
    forall i, j | 0 <= i < j < |s| :: s[i] != s[j]
  }

  lemma NoDupCons(x: Callback, s: seq<Callback>)
    ensures NoDup([x] + s) <==> x !in s && NoDup(s)
  {
    var t := [x] + s;
    assert forall i | 0 <= i < |s| :: s[i] == t[i + 1];
    if x !in s && NoDup(s) {
      forall i, j | 0 <= i < j < |t| ensures t[i] != t[j] {
        if i > 0 { assert t[i] == s[i - 1] && t[j] == s[j - 1]; }
        else { assert t[j] == s[j - 1]; }
      }
    }
    if NoDup(t) {
      forall i | 0 <= i < |s| ensures s[i] != x {
        assert t[0] != t[i + 1];
      }
      forall i, j | 0 <= i < j < |s| ensures s[i] != s[j] {
        assert t[i + 1] == s[i] && t[j + 1] == s[j];
      }
    }
  }

  predicate Sets(ls: Listeners)
  {
    forall e | e in ls :: NoDup(ls[e])
  }

  /** Registering one name: a new empty set unless it already has one. */
  function Register(ls: Listeners, event: string): (r: Listeners)
    ensures r.Keys == ls.Keys + {event}
    ensures forall e | e in ls :: r[e] == ls[e]
    ensures event !in ls ==> r[event] == []
  {
    if event in ls then ls else ls[event := []]
  }

  /** Registering names keeps every set a set. */
  lemma RegisterAllKeepsSets(ls: Listeners, names: seq<string>)
    requires Sets(ls)
    ensures Sets(RegisterAll(ls, names))
  {
    var r := RegisterAll(ls, names);
    forall e | e in r ensures NoDup(r[e]) {
      if e !in ls {
        assert r[e] == [];
      }
    }
  }

  /** Registering the names one after the other, as the loop of
      `registerEvents` does: existing sets keep their callbacks, and every
      name not registered before starts with an empty set. */
  function RegisterAll(ls: Listeners, names: seq<string>): (r: Listeners)
    ensures forall e | e in ls :: e in r && r[e] == ls[e]
    ensures forall e | e in r && e !in ls :: e in names && r[e] == []
    ensures forall i | 0 <= i < |names| :: names[i] in r
    decreases |names|
  {
    if names == [] then ls
    else RegisterAll(Register(ls, names[0]), names[1..])
  }

  /** The loop of `registerEvents`: the names in order, each given an empty
      set unless it has one. */
  method RegisterNames(ls: Listeners, names: seq<string>) returns (r: Listeners)
    ensures r == RegisterAll(ls, names)
  {
    r := ls;
    var i := 0;
    while i < |names|
      invariant 0 <= i <= |names|
      invariant RegisterAll(r, names[i..]) == RegisterAll(ls, names)
    {
      assert names[i..][1..] == names[i + 1..];
      r := Register(r, names[i]);
      i := i + 1;
    }
  }

  /** `set.add(callback)`: appended at the end unless already present. */
  function Insert(cbs: seq<Callback>, cb: Callback): (r: seq<Callback>)
    ensures forall x :: x in r <==> x in cbs || x == cb
    ensures cb in cbs ==> r == cbs
    ensures cb !in cbs ==> r == cbs + [cb]
    ensures NoDup(cbs) ==> NoDup(r)
  {
    if cb in cbs then cbs else cbs + [cb]
  }

  /** `set.delete(callback)`: the others keep their order. */
  function Removed(cbs: seq<Callback>, cb: Callback): (r: seq<Callback>)
    ensures forall x :: x in r <==> x in cbs && x != cb
    ensures |r| <= |cbs|
    ensures cb !in cbs ==> r == cbs
    ensures NoDup(cbs) ==> NoDup(r)
    decreases |cbs|
  {
    if cbs == [] then []
    else
      var rest := Removed(cbs[1..], cb);
      assert forall x :: x in cbs <==> x == cbs[0] || x in cbs[1..];
      NoDupCons(cbs[0], cbs[1..]);
      NoDupCons(cbs[0], rest);
      assert cbs == [cbs[0]] + cbs[1..];
      if cbs[0] == cb then rest else [cbs[0]] + rest
  }

  /** `off()`: every set emptied, every name kept. */
  function Cleared(ls: Listeners): (r: Listeners)
    ensures r.Keys == ls.Keys
    ensures forall e | e in r :: r[e] == []
  {
    map e | e in ls :: []
  }

  /** The invocations `set.forEach(cb => cb(data, event))` makes, in order. */
  function Dispatch<D>(cbs: seq<Callback>, data: D, event: string): (r: seq<Call<D>>)
    ensures |r| == |cbs|
    ensures forall i | 0 <= i < |r| :: r[i].callback == cbs[i] && r[i].data == data && r[i].event == event
    decreases |cbs|
  {
    if cbs == [] then [] else [Call(cbs[0], data, event)] + Dispatch(cbs[1..], data, event)
  }

  /** `on(name, callback)`: added to a registered name's set, ignored otherwise. */
  function OnName(ls: Listeners, event: string, cb: Callback): (r: Listeners)
    ensures r.Keys == ls.Keys
    ensures forall e | e in ls && e != event :: r[e] == ls[e]
    ensures event in ls ==> r[event] == Insert(ls[event], cb)
    ensures event !in ls ==> r == ls
  {
    if event in ls then ls[event := Insert(ls[event], cb)] else ls
  }

  /** `on({name: callback, ...})`: `on` for each pair in key order. */
  function OnAll(ls: Listeners, pairs: seq<(string, Callback)>): (r: Listeners)
    ensures r.Keys == ls.Keys
    ensures Sets(ls) ==> Sets(r)
    decreases |pairs|
  {
    if pairs == [] then ls
    else
      var last := pairs[|pairs| - 1];
      OnName(OnAll(ls, pairs[..|pairs| - 1]), last.0, last.1)
  }

  /** After `on(object)`, every registered name holds every callback the object
      gave it, and still holds what it held before. */
  lemma {:induction false} OnAllAdds(ls: Listeners, pairs: seq<(string, Callback)>)
    ensures forall e, x | e in ls && x in ls[e] :: x in OnAll(ls, pairs)[e]
    ensures forall i | 0 <= i < |pairs| && pairs[i].0 in ls :: pairs[i].1 in OnAll(ls, pairs)[pairs[i].0]
    decreases |pairs|
  {
    if pairs != [] {
      var prefix := pairs[..|pairs| - 1];
      OnAllAdds(ls, prefix);
      forall i | 0 <= i < |pairs| - 1 ensures pairs[i] == prefix[i] { }
    }
  }

  /** `on(object)` never touches a name that is not registered: it stays
      unregistered. */
  lemma OnAllKeepsUnregistered(ls: Listeners, pairs: seq<(string, Callback)>, e: string)
    requires e !in ls
    ensures e !in OnAll(ls, pairs)
  {
  }

  /** Once removed, a callback is not called by a later trigger, whatever else
      the set holds. */
  lemma OffSilences<D>(cbs: seq<Callback>, cb: Callback, data: D, event: string)
    ensures forall c | c in Dispatch(Removed(cbs, cb), data, event) :: c.callback != cb
  {
    var r := Removed(cbs, cb);
    var calls := Dispatch(r, data, event);
    forall c | c in calls ensures c.callback != cb {
      var i :| 0 <= i < |calls| && calls[i] == c;
      assert c.callback == r[i];
    }
  }

  /** Everything a bus holds and has done: its listeners, the invocations it
      made and the events it was asked to trigger. */
  datatype BusState<D> = BusState(listeners: Listeners, calls: seq<Call<D>>, triggered: seq<Event<D>>)

  /** What one `triggerEvent` does to the bus: an unregistered name is
      registered with no callback; the callbacks of the name, oldest first,
      are called with the event's data and name. */
  function Triggering<D>(st: BusState<D>, e: Event<D>): (r: BusState<D>)
    ensures r.listeners.Keys == st.listeners.Keys + {e.name}
    ensures forall n | n in st.listeners :: r.listeners[n] == st.listeners[n]
    ensures e.name in st.listeners ==> r.calls == st.calls + Dispatch(st.listeners[e.name], e.data, e.name)
    ensures e.name !in st.listeners ==> r.calls == st.calls && r.listeners[e.name] == []
    ensures r.triggered == st.triggered + [e]
  {
    var ls := Register(st.listeners, e.name);
    BusState(ls, st.calls + Dispatch(ls[e.name], e.data, e.name), st.triggered + [e])
  }

  /** The events triggered one after the other. */
  function TriggeringAll<D>(st: BusState<D>, es: seq<Event<D>>): BusState<D>
    decreases |es|
  {
    if es == [] then st else Triggering(TriggeringAll(st, es[..|es| - 1]), es[|es| - 1])
  }

  /** Triggering a sequence records exactly that sequence, keeps every
      registered name's callbacks and keeps the sets sets. */
  lemma {:induction false} TriggeringAllRecords<D>(st: BusState<D>, es: seq<Event<D>>)
    ensures TriggeringAll(st, es).triggered == st.triggered + es
    ensures forall n | n in st.listeners :: n in TriggeringAll(st, es).listeners
                                            && TriggeringAll(st, es).listeners[n] == st.listeners[n]
    ensures Sets(st.listeners) ==> Sets(TriggeringAll(st, es).listeners)
    decreases |es|
  {
    if es != [] {
      var prefix := es[..|es| - 1];
      TriggeringAllRecords(st, prefix);
      assert prefix + [es[|es| - 1]] == es;
    }
  }

  /** Triggering a single event is one `Triggering` step. */
  lemma TriggeringOne<D>(st: BusState<D>, e: Event<D>)
    ensures TriggeringAll(st, [e]) == Triggering(st, e)
  {
    assert [e][..0] == [];
  }

  /** Triggering two events is two `Triggering` steps. */
  lemma TriggeringTwo<D>(st: BusState<D>, e: Event<D>, f: Event<D>)
    ensures TriggeringAll(st, [e, f]) == Triggering(Triggering(st, e), f)
  {
    assert [e, f][..1] == [e];
    TriggeringOne(st, e);
  }

  /** Triggering one more event is one more `Triggering` step. */
  lemma TriggeringAllSnoc<D>(st: BusState<D>, es: seq<Event<D>>, e: Event<D>)
    ensures TriggeringAll(st, es + [e]) == Triggering(TriggeringAll(st, es), e)
  {
    assert (es + [e])[..|es|] == es;
  }

  /** Triggering two sequences one after the other is triggering their
      concatenation. */
  lemma {:induction false} TriggeringAllAppend<D>(st: BusState<D>, a: seq<Event<D>>, b: seq<Event<D>>)
    ensures TriggeringAll(TriggeringAll(st, a), b) == TriggeringAll(st, a + b)
    decreases |b|
  {
    if b == [] {
      assert a + b == a;
    } else {
      var prefix := b[..|b| - 1];
      var last := b[|b| - 1];
      TriggeringAllAppend(st, a, prefix);
      assert a + b == (a + prefix) + [last];
      TriggeringAllSnoc(st, a + prefix, last);
    }
  }

  class Bus<D> {
    var listeners: Listeners
    /** Every callback invocation so far, oldest first. */
    var calls: seq<Call<D>>
    /** Every `triggerEvent` so far, oldest first, whether or not anyone
        listened: what the event source emitted. */
    var triggered: seq<Event<D>>

    /** Each name's callbacks form a set. */
    predicate Valid()
      reads this
    {
      Sets(listeners)
    }

    function State(): BusState<D>
      reads this
    {
      BusState(listeners, calls, triggered)
    }

    /** `var eventListeners = {}`. */
    constructor ()
      ensures Valid() && listeners == map[] && calls == [] && triggered == []
    {
      listeners := map[];
      calls := [];
      triggered := [];
    }

    /** `registerEvents(events)`: register every name, creating empty sets
        only for names not yet registered. */
    method RegisterEvents(events: Names)
      requires Valid()
      modifies this
      ensures Valid()
      ensures listeners == RegisterAll(old(listeners), NameList(events))
      ensures calls == old(calls) && triggered == old(triggered)
    {
      var registered := RegisterNames(listeners, NameList(events));
      RegisterAllKeepsSets(listeners, NameList(events));
      listeners := registered;
    }

    /** `on(event, callback)` with an event name. An unregistered name only
        produces a notice. */
    method On(event: string, callback: Callback)
      requires Valid()
      modifies this
      ensures Valid()
      ensures listeners == OnName(old(listeners), event, callback)
      ensures calls == old(calls) && triggered == old(triggered)
    {
      if event in listeners {
        listeners := listeners[event := Insert(listeners[event], callback)];
      }
    }

    /** `on(object)`: `on(key, object[key])` for every key. */
    method OnEach(pairs: seq<(string, Callback)>)
      requires Valid()
      modifies this
      ensures Valid()
      ensures listeners == OnAll(old(listeners), pairs)
      ensures calls == old(calls) && triggered == old(triggered)
    {
      var i := 0;
      while i < |pairs|
        invariant 0 <= i <= |pairs|
        invariant listeners == OnAll(old(listeners), pairs[..i])
        invariant Valid() && calls == old(calls) && triggered == old(triggered)
      {
        assert pairs[..i + 1][..i] == pairs[..i];
        On(pairs[i].0, pairs[i].1);
        i := i + 1;
      }
      assert pairs[..i] == pairs;
    }

    /** `off(event, callback)`. With neither argument truthy every set is
        cleared, one name at a time; otherwise `callback` leaves the set of
        `event`, and an unregistered name only produces a notice. */
    method Off(event: Option<string>, callback: Option<Callback>)
      requires Valid()
      modifies this
      ensures Valid()
      ensures calls == old(calls) && triggered == old(triggered)
      ensures !Truthy(event) && callback.None? ==> listeners == Cleared(old(listeners))
      ensures !(!Truthy(event) && callback.None?) ==>
        listeners == (if PropKey(event) in old(listeners) && callback.Some?
                      then old(listeners)[PropKey(event) := Removed(old(listeners)[PropKey(event)], callback.value)]
                      else old(listeners))
    {
      if !Truthy(event) && callback.None? {
        var pending := listeners.Keys;
        while pending != {}
          invariant pending <= listeners.Keys && listeners.Keys == old(listeners).Keys
          invariant forall e | e in listeners :: listeners[e] == (if e in pending then old(listeners)[e] else [])
          invariant Valid() && calls == old(calls) && triggered == old(triggered)
          decreases pending
        {
          var e :| e in pending;
          listeners := listeners[e := []];
          pending := pending - {e};
        }
      } else {
        var key := PropKey(event);
        if key in listeners && callback.Some? {
          listeners := listeners[key := Removed(listeners[key], callback.value)];
        }
      }
    }

    /** `triggerEvent(event, data)`: an unregistered name is registered and
        nothing is called; otherwise every callback of the name is called with
        `(data, event)`, oldest first. */
    method TriggerEvent(event: string, data: D)
      requires Valid()
      modifies this
      ensures Valid()
      ensures triggered == old(triggered) + [Event(event, data)]
      ensures event !in old(listeners) ==> listeners == old(listeners)[event := []] && calls == old(calls)
      ensures event in old(listeners) ==>
        listeners == old(listeners) && calls == old(calls) + Dispatch(old(listeners)[event], data, event)
      ensures State() == Triggering(old(State()), Event(event, data))
    {
      if event !in listeners {
        RegisterEvents(One(event));
        assert [event][..0] == [] && [event][..1] == [event];
      } else {
        var callbacks := listeners[event];
        var i := 0;
        while i < |callbacks|
          invariant 0 <= i <= |callbacks|
          invariant listeners == old(listeners) && triggered == old(triggered)
          invariant calls == old(calls) + Dispatch(callbacks[..i], data, event)
        {
          DispatchSnoc(callbacks[..i], callbacks[i], data, event);
          assert callbacks[..i + 1] == callbacks[..i] + [callbacks[i]];
          calls := calls + [Call(callbacks[i], data, event)];
          i := i + 1;
        }
        assert callbacks[..i] == callbacks;
      }
      triggered := triggered + [Event(event, data)];
    }
  }

  /** Dispatching one more callback appends one more call. */
  lemma {:induction false} DispatchSnoc<D>(cbs: seq<Callback>, cb: Callback, data: D, event: string)
    ensures Dispatch(cbs + [cb], data, event) == Dispatch(cbs, data, event) + [Call(cb, data, event)]
    decreases |cbs|
  {
    if cbs != [] {
      assert (cbs + [cb])[1..] == cbs[1..] + [cb];
      DispatchSnoc(cbs[1..], cb, data, event);
    } else {
      assert [cb][1..] == [];
    }
  }
}
