/**
 * The in-process event bus (app/events.py): a registry from event name to the
 * handlers subscribed under it, `subscribe` appending to it and `emit` calling
 * the handlers synchronously, in subscription order, swallowing whatever they
 * raise.
 */
module Events {
  import opened Wrappers
  import opened Models
  import opened Netbox
  import opened Steps

  /**
   * A subscriber, reduced to what dispatch can observe of it: an identity and
   * whether calling it raises.
   */
  datatype Handler = Handler(id: nat, raises: bool)

  /** One handler invocation, and whether it raised (the exception goes no further). */
  datatype Call = Call(handler: Handler, event: Event, raised: bool)

  /** `_listeners`. */
  type Registry = map<string, seq<Handler>>

  /** `_listeners.get(name, [])`. */
  function HandlersOf(r: Registry, name: string): seq<Handler> {
    if name in r then r[name] else []
  }

  /** The registry after `subscribe(name, h)`: `setdefault(name, []).append(h)`. */
  function Subscribed(r: Registry, name: string, h: Handler): (r': Registry)
    ensures HandlersOf(r', name) == HandlersOf(r, name) + [h]
    ensures forall n :: n != name ==> HandlersOf(r', n) == HandlersOf(r, n)
    ensures r'.Keys == r.Keys + {name}
  {
    r[name := HandlersOf(r, name) + [h]]
  }

  /** Every subscription of `r` is still in `r'`, at the same place in its list. */
  ghost predicate Extends(r: Registry, r': Registry) {
    forall n :: n in r ==> n in r' && r[n] <= r'[n]
  }

  /** The calls `emit` makes when `hs` are the handlers of `e.name`, one per handler, in order. */
  function Invocations(hs: seq<Handler>, e: Event): seq<Call>
  {
    if hs == [] then []
    else Invocations(hs[..|hs| - 1], e) + [Call(hs[|hs| - 1], e, hs[|hs| - 1].raises)]
  }

  /** The calls made by emitting `es` one after the other on registry `r`. */
  function Dispatch(r: Registry, es: seq<Event>): seq<Call>
  {
    if es == [] then []
    else Dispatch(r, es[..|es| - 1]) + Invocations(HandlersOf(r, es[|es| - 1].name), es[|es| - 1])
  }

  /** How many of `cs` call handler `h`. */
  function CallCount(cs: seq<Call>, h: Handler): nat
  {
    if cs == [] then 0
    else CallCount(cs[..|cs| - 1], h) + (if cs[|cs| - 1].handler == h then 1 else 0)
  }

  /**
   * Emitting calls every handler exactly once and in subscription order; a
   * handler that raises does not stop the ones after it.
   */
  lemma {:induction false} InvocationsInOrder(hs: seq<Handler>, e: Event)
    ensures |Invocations(hs, e)| == |hs|
    ensures forall k :: 0 <= k < |hs| ==> Invocations(hs, e)[k] == Call(hs[k], e, hs[k].raises)
  {
    if hs != [] {
      InvocationsInOrder(hs[..|hs| - 1], e);
    }
  }

  /** A handler is called as many times as it occurs in the list of the emitted name. */
  lemma {:induction false} InvocationsCount(hs: seq<Handler>, e: Event, h: Handler)
    ensures CallCount(Invocations(hs, e), h) == multiset(hs)[h]
  {
    if hs != [] {
      var init := hs[..|hs| - 1];
      InvocationsCount(init, e, h);
      var cs := Invocations(hs, e);
      assert cs[..|cs| - 1] == Invocations(init, e);
      assert hs == init + [hs[|hs| - 1]];
    }
  }

  /** Emitting a name nobody subscribed to calls nothing. */
  lemma EmitWithoutSubscribers(r: Registry, e: Event)
    requires e.name !in r
    ensures Invocations(HandlersOf(r, e.name), e) == []
  {
  }

  /** Handlers subscribed only under other names are not called. */
  lemma EmitCallsOnlyThatName(r: Registry, e: Event, h: Handler)
    requires h !in HandlersOf(r, e.name)
    ensures CallCount(Invocations(HandlersOf(r, e.name), e), h) == 0
  {
    InvocationsCount(HandlersOf(r, e.name), e, h);
  }

  /** Subscribing the same handler twice makes it run twice more per emit. */
  lemma SubscribeTwiceRunsTwice(r: Registry, name: string, h: Handler, payload: Payload)
    ensures var r2 := Subscribed(Subscribed(r, name, h), name, h);
            var e := Event(name, payload);
            CallCount(Invocations(HandlersOf(r2, name), e), h)
              == CallCount(Invocations(HandlersOf(r, name), e), h) + 2
  {
    var r2 := Subscribed(Subscribed(r, name, h), name, h);
    var e := Event(name, payload);
    InvocationsCount(HandlersOf(r2, name), e, h);
    InvocationsCount(HandlersOf(r, name), e, h);
    assert HandlersOf(r2, name) == HandlersOf(r, name) + [h] + [h];
  }

  /** There is no unsubscribe: subscribing only ever adds to the registry. */
  lemma SubscribeExtends(r: Registry, name: string, h: Handler)
    ensures Extends(r, Subscribed(r, name, h))
  {
    var r' := Subscribed(r, name, h);
    forall n | n in r
      ensures n in r' && r[n] <= r'[n]
    {
      assert HandlersOf(r, n) == r[n];
    }
  }

  /** A sequence of subscriptions keeps extending the registry. */
  lemma ExtendsTransitive(r1: Registry, r2: Registry, r3: Registry)
    requires Extends(r1, r2) && Extends(r2, r3)
    ensures Extends(r1, r3)
  {
  }

  /** Emitting one more event appends exactly that event's calls. */
  lemma DispatchSnoc(r: Registry, es: seq<Event>, e: Event)
    ensures Dispatch(r, es + [e]) == Dispatch(r, es) + Invocations(HandlersOf(r, e.name), e)
  {
    assert (es + [e])[..|es|] == es;
  }

  /** Emitting `a` and then `b` makes the calls of `a` followed by those of `b`. */
  lemma {:induction false} DispatchAppend(r: Registry, a: seq<Event>, b: seq<Event>)
    ensures Dispatch(r, a + b) == Dispatch(r, a) + Dispatch(r, b)
  {
    if b == [] {
      assert a + b == a;
    } else {
      var init, e := b[..|b| - 1], b[|b| - 1];
      assert b == init + [e];
      AppendAssoc(a, init, [e]);
      DispatchAppend(r, a, init);
      DispatchSnoc(r, a + init, e);
      DispatchSnoc(r, init, e);
      AppendAssoc(Dispatch(r, a), Dispatch(r, init), Invocations(HandlersOf(r, e.name), e));
    }
  }

  /** The registry together with a record of what was emitted and which handlers ran. */
  class EventBus {
    var listeners: Registry
    /** Every handler call made so far, in order. */
    var calls: seq<Call>
    /** Every event emitted so far, in order. */
    ghost var emitted: seq<Event>

    constructor ()
      ensures listeners == map[] && calls == [] && emitted == []
    {
      listeners := map[];
      calls := [];
      emitted := [];
    }

    /** `subscribe(name, handler)`. */
    method Subscribe(name: string, h: Handler)
      modifies this`listeners
      ensures listeners == Subscribed(old(listeners), name, h)
      ensures Extends(old(listeners), listeners)
    {
      SubscribeExtends(listeners, name, h);
      listeners := Subscribed(listeners, name, h);
    }

    /**
     * `emit(name, payload)`: the emit is one step of the journal; it always
     * returns normally and leaves the registry as it was.
     */
    method Emit(name: string, payload: Payload, ghost log: Journal)
      modifies this`calls, this`emitted, log`steps
      ensures emitted == old(emitted) + [Event(name, payload)]
      ensures calls == old(calls) + Invocations(HandlersOf(listeners, name), Event(name, payload))
      ensures log.steps == old(log.steps) + [Emitted(Event(name, payload))]
    {
      var e := Event(name, payload);
      log.steps := log.steps + [Emitted(e)];
      var hs := HandlersOf(listeners, name);
      var i := 0;
      while i < |hs|
        invariant 0 <= i <= |hs|
        invariant calls == old(calls) + Invocations(hs[..i], e)
        invariant emitted == old(emitted)
        invariant log.steps == old(log.steps) + [Emitted(e)]
      {
        var h := hs[i];
        // The handler runs; if it raises, the exception is caught and dropped.
        var raised := h.raises;
        calls := calls + [Call(h, e, raised)];
        assert hs[..i + 1][..i] == hs[..i];
        i := i + 1;
      }
      assert hs[..i] == hs;
      emitted := emitted + [e];
    }
  }
}
