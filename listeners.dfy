/**
 * The listener registry of WebSocketClient: a map from event name to the set of
 * handlers registered under it (`this.handlers`, a Map of Sets), with `on` and
 * the dispatch half of `emit`. A JavaScript Set keeps its elements in insertion
 * order and holds each at most once, so a handler set is a duplicate-free
 * sequence here.
 */
module Listeners {
  import opened Events

  /** Handlers are compared by identity only. */
  type HandlerId = nat

  type Registry = map<string, seq<HandlerId>>

  /** One invocation `handler(data)` made by emit(event, data). */
  datatype Delivery = Delivery(event: string, handler: HandlerId, data: Payload)

  predicate Distinct(hs: seq<HandlerId>)
  {
    forall i, j | 0 <= i < j < |hs| :: hs[i] != hs[j]
  }

  /** Every handler set of the registry is a set: no handler twice. */
  predicate WellFormed(reg: Registry)
  {
    forall e | e in reg :: Distinct(reg[e])
  }

  /** `handlers.get(event)`, with a missing entry read as the empty set. */
  function HandlersOf(reg: Registry, event: string): seq<HandlerId>
  {
    if event in reg then reg[event] else []
  }

  /** `on(event, handler)`: create the set for `event` if missing, then add
      `handler` to it (at the end, unless it is already there). */
  function Register(reg: Registry, event: string, handler: HandlerId): (r: Registry)
    ensures r.Keys == reg.Keys + {event}
    ensures forall e | e in reg && e != event :: r[e] == reg[e]
    ensures handler in HandlersOf(reg, event) ==> r[event] == HandlersOf(reg, event)
    ensures handler !in HandlersOf(reg, event) ==> r[event] == HandlersOf(reg, event) + [handler]
  {
    var hs := HandlersOf(reg, event);
    reg[event := if handler in hs then hs else hs + [handler]]
  }

  /** After `on(event, handler)` the set for `event` is the old one plus `handler`. */
  lemma RegisterAdds(reg: Registry, event: string, handler: HandlerId)
    ensures forall h :: h in HandlersOf(Register(reg, event, handler), event)
                    <==> h in HandlersOf(reg, event) || h == handler
    ensures forall e | e != event :: HandlersOf(Register(reg, event, handler), e) == HandlersOf(reg, e)
  {
  }

  /** `on` keeps every handler set free of duplicates. */
  lemma RegisterPreservesWellFormed(reg: Registry, event: string, handler: HandlerId)
    requires WellFormed(reg)
    ensures WellFormed(Register(reg, event, handler))
  {
    var hs := HandlersOf(reg, event);
    assert Distinct(hs);
    if handler !in hs {
      var hs' := hs + [handler];
      forall i, j | 0 <= i < j < |hs'| ensures hs'[i] != hs'[j] {
        if j == |hs| {
          assert hs'[i] == hs[i];
        }
      }
    }
  }

  /** Registering the same handler twice is the same as registering it once. */
  lemma RegisterIdempotent(reg: Registry, event: string, handler: HandlerId)
    ensures Register(Register(reg, event, handler), event, handler) == Register(reg, event, handler)
  {
    var once := Register(reg, event, handler);
    assert handler in HandlersOf(once, event);
  }

  /** The invocations made by `hs.forEach(handler => handler(data))`, in order. */
  function DeliverAll(event: string, hs: seq<HandlerId>, data: Payload): (ds: seq<Delivery>)
    ensures |ds| == |hs|
    ensures forall i | 0 <= i < |ds| :: ds[i] == Delivery(event, hs[i], data)
  {
    if hs == [] then []
    else DeliverAll(event, hs[..|hs| - 1], data) + [Delivery(event, hs[|hs| - 1], data)]
  }

  /** Each registered handler is invoked exactly once with `data`, and no other
      handler is invoked at all. */
  lemma {:induction false} DeliverAllExactlyOnce(event: string, hs: seq<HandlerId>, data: Payload, h: HandlerId)
    requires Distinct(hs)
    ensures multiset(DeliverAll(event, hs, data))[Delivery(event, h, data)] == if h in hs then 1 else 0
  {
    if hs != [] {
      var init := hs[..|hs| - 1];
      var last := hs[|hs| - 1];
      assert hs == init + [last];
      DeliverAllExactlyOnce(event, init, data, h);
      assert h in hs <==> h in init || h == last;
      if h == last {
        assert h !in init;
      }
    }
  }

  /** The handler invocations made by one call of emit. */
  function Dispatch(reg: Registry, em: Emission): (ds: seq<Delivery>)
    ensures |ds| == |HandlersOf(reg, em.name)|
    ensures forall d | d in ds :: d.event == em.name && d.data == em.data && d.handler in HandlersOf(reg, em.name)
  {
    DeliverAll(em.name, HandlersOf(reg, em.name), em.data)
  }

  /** Emitting an event nobody listens to invokes nothing. */
  lemma DispatchWithoutListeners(reg: Registry, em: Emission)
    requires em.name !in reg
    ensures Dispatch(reg, em) == []
  {
  }

  /** Registering the same handler twice still gives one invocation per emit. */
  lemma RegisterTwiceDeliversOnce(reg: Registry, event: string, handler: HandlerId, data: Payload)
    requires WellFormed(reg)
    ensures var twice := Register(Register(reg, event, handler), event, handler);
            multiset(Dispatch(twice, Emission(event, data)))[Delivery(event, handler, data)] == 1
  {
    RegisterIdempotent(reg, event, handler);
    RegisterPreservesWellFormed(reg, event, handler);
    var once := Register(reg, event, handler);
    DeliverAllExactlyOnce(event, HandlersOf(once, event), data, handler);
  }

  /** The handler invocations made by a series of emits, all under `reg`. */
  function DeliveriesFor(reg: Registry, ems: seq<Emission>): seq<Delivery>
  {
    if ems == [] then []
    else DeliveriesFor(reg, ems[..|ems| - 1]) + Dispatch(reg, ems[|ems| - 1])
  }

  lemma DeliveriesForOne(reg: Registry, em: Emission)
    ensures DeliveriesFor(reg, [em]) == Dispatch(reg, em)
  {
    assert [em][..0] == [];
  }

  /** Emitting `a` and then `b` invokes what `a` invokes, followed by what `b` invokes. */
  lemma {:induction false} DeliveriesForAppend(reg: Registry, a: seq<Emission>, b: seq<Emission>)
    ensures DeliveriesFor(reg, a + b) == DeliveriesFor(reg, a) + DeliveriesFor(reg, b)
  {
    if b == [] {
      assert a + b == a;
    } else {
      var init, last := b[..|b| - 1], b[|b| - 1];
      LastOfConcat(a, b);
      DeliveriesForAppend(reg, a, init);
      AppendAssoc(DeliveriesFor(reg, a), DeliveriesFor(reg, init), Dispatch(reg, last));
      assert DeliveriesFor(reg, a + b) == DeliveriesFor(reg, a + init) + Dispatch(reg, last);
    }
  }

  lemma AppendAssoc<T>(a: seq<T>, b: seq<T>, c: seq<T>)
    ensures (a + b) + c == a + (b + c)
  {
  }

  /** Dropping the last element of `a + b` drops the last element of `b`. */
  lemma LastOfConcat<T>(a: seq<T>, b: seq<T>)
    requires b != []
    ensures (a + b)[..|a + b| - 1] == a + b[..|b| - 1]
    ensures (a + b)[|a + b| - 1] == b[|b| - 1]
  {
  }

  /** Before any `on`, emits reach no handler. */
  lemma {:induction false} NothingDeliveredWithoutRegistry(ems: seq<Emission>)
    ensures DeliveriesFor(map[], ems) == []
  {
    if ems != [] {
      NothingDeliveredWithoutRegistry(ems[..|ems| - 1]);
    }
  }
}
