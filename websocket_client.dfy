/**
 * WebSocketClient: a reconnecting wrapper around one browser WebSocket. The
 * browser's callbacks (onopen, onclose, onerror, onmessage) and the reconnect
 * timer become methods that the environment calls; each is proved to move the
 * client exactly as `Lifecycle.Step` says, and to invoke exactly the handlers
 * `Listeners.DeliveriesFor` says for the events it emits.
 */
module WebSocket {
  import opened Wrappers
  import opened Events
  import opened Listeners
  import opened Lifecycle

  /** Emitting `e0` then `e1[|e0|..]` then `e2[|e1|..]` delivers as one series. */
  lemma DeliveredChain(reg: Registry,
                       d0: seq<Delivery>, e0: seq<Emission>,
                       d1: seq<Delivery>, e1: seq<Emission>,
                       d2: seq<Delivery>, e2: seq<Emission>)
    requires |e0| <= |e1| <= |e2| && e1[..|e0|] == e0 && e2[..|e1|] == e1
    requires d1 == d0 + DeliveriesFor(reg, e1[|e0|..])
    requires d2 == d1 + DeliveriesFor(reg, e2[|e1|..])
    ensures e2[..|e0|] == e0
    ensures d2 == d0 + DeliveriesFor(reg, e2[|e0|..])
  {
    SuffixOfExtension(e0, e1, e2);
    DeliveriesForAppend(reg, e1[|e0|..], e2[|e1|..]);
    AppendAssoc(d0, DeliveriesFor(reg, e1[|e0|..]), DeliveriesFor(reg, e2[|e1|..]));
  }


  lemma SuffixOfExtension<T>(e0: seq<T>, e1: seq<T>, e2: seq<T>)
    requires |e0| <= |e1| <= |e2| && e1[..|e0|] == e0 && e2[..|e1|] == e1
    ensures e2[..|e0|] == e0
    ensures e2[|e0|..] == e1[|e0|..] + e2[|e1|..]
  {
    assert e1 == e0 + e1[|e0|..];
    assert e2 == e1 + e2[|e1|..];
  }

  class WebSocketClient {
    const url: string
    const options: Options

    var reconnectAttempts: int
    var pendingRetries: nat        // reconnect timers set and not yet fired
    var ws: Transport
    var handlers: Registry

    ghost var retriesScheduled: nat
    ghost var emitted: seq<Emission>     // every emit, in order
    ghost var deliveries: seq<Delivery>  // every handler invocation, in order
    ghost var frames: seq<Json>          // every value passed to ws.send, in order

    ghost predicate Valid()
      reads this
    {
      WithinBudget(reconnectAttempts, options.maxReconnectAttempts) && WellFormed(handlers)
    }

    /** The client as a state of the reconnect machine. */
    ghost function State(): Machine
      reads this
    {
      Machine(reconnectAttempts, pendingRetries, retriesScheduled, ws, emitted, frames)
    }

    /** The emits made since `emitted0` invoked exactly the handlers registered
        for them, in emit order and set order, and nothing else was invoked. */
    ghost predicate DeliveredSince(deliveries0: seq<Delivery>, emitted0: seq<Emission>)
      reads this
    {
      && |emitted0| <= |emitted|
      && emitted[..|emitted0|] == emitted0
      && deliveries == deliveries0 + DeliveriesFor(handlers, emitted[|emitted0|..])
    }

    /** new WebSocketClient(url, options): merge the options, start with no
        attempts and no handlers, then connect. An error from that first
        connect is emitted before anyone can have registered for it. */
    constructor (url: string, given: GivenOptions, failure: Option<TransportError>)
      ensures Valid()
      ensures this.url == url && options == MergeOptions(given)
      ensures handlers == map[]
      ensures State() == Lifecycle.Connect(Initial(), failure)
      ensures deliveries == []
    {
      this.url := url;
      options := MergeOptions(given);
      reconnectAttempts := 0;
      pendingRetries := 0;
      retriesScheduled := 0;
      ws := NoSocket;
      handlers := map[];
      emitted := [];
      deliveries := [];
      frames := [];
      new;
      Connect(failure);
      NothingDeliveredWithoutRegistry(emitted);
    }

    /** connect(): replace the socket by a new one, or, when the WebSocket
        constructor throws, report the error through handleError. */
    method Connect(failure: Option<TransportError>)
      requires Valid()
      modifies this`ws, this`emitted, this`deliveries
      ensures Valid()
      ensures State() == Lifecycle.Connect(old(State()), failure)
      ensures DeliveredSince(old(deliveries), old(emitted))
    {
      match failure
      case None =>
        ws := Socket(Connecting);
        assert emitted[|old(emitted)|..] == [];
      case Some(e) =>
        HandleError(e);
    }

    /** onopen: the socket is OPEN; reset the attempts and emit connected. */
    method OnOpen()
      requires Valid() && ws.Socket?
      modifies this`reconnectAttempts, this`ws, this`emitted, this`deliveries
      ensures Valid()
      ensures State() == Step(old(State()), options.maxReconnectAttempts, TransportOpened)
      ensures DeliveredSince(old(deliveries), old(emitted))
    {
      ws := Socket(Open);  // readyState as the browser sets it before onopen
      reconnectAttempts := 0;
      Emit(CONNECTED, NoPayload);
    }

    /** onclose: emit disconnected, then decide on a retry. */
    method OnClose()
      requires Valid() && ws.Socket?
      modifies this`reconnectAttempts, this`pendingRetries, this`retriesScheduled, this`ws,
               this`emitted, this`deliveries
      ensures Valid()
      ensures State() == Step(old(State()), options.maxReconnectAttempts, TransportClosed)
      ensures DeliveredSince(old(deliveries), old(emitted))
    {
      ws := Socket(Closed);  // readyState as the browser sets it before onclose
      Emit(DISCONNECTED, NoPayload);
      ghost var d1, e1 := deliveries, emitted;
      Reconnect();
      DeliveredChain(handlers, old(deliveries), old(emitted), d1, e1, deliveries, emitted);
    }

    /** The browser starts the closing handshake the server asked for: an OPEN
        socket becomes CLOSING and no callback runs. */
    method ClosingHandshakeStarts()
      requires ws.Socket?
      modifies this`ws
      ensures State() == Step(old(State()), options.maxReconnectAttempts, TransportClosing)
    {
      if ws.state == Open {
        ws := Socket(Closing);
      }
    }

    /** onerror: handleError(error). */
    method OnError(error: TransportError)
      requires Valid() && ws.Socket?
      modifies this`ws, this`emitted, this`deliveries
      ensures Valid()
      ensures State() == Step(old(State()), options.maxReconnectAttempts, TransportErrored(error))
      ensures DeliveredSince(old(deliveries), old(emitted))
    {
      ws := Socket(Closed);  // readyState as the browser sets it before onerror
      HandleError(error);
    }

    /** onmessage: `parsed` is what JSON.parse made of the frame, None when it
        threw; a parsed value is emitted as message, a parse failure only
        goes to the diagnostic log. */
    method OnMessage(parsed: Option<Json>)
      requires Valid() && ws.Socket?
      modifies this`emitted, this`deliveries
      ensures Valid()
      ensures State() == Step(old(State()), options.maxReconnectAttempts, MessageArrived(parsed))
      ensures DeliveredSince(old(deliveries), old(emitted))
    {
      match parsed
      case Some(v) =>
        Emit(MESSAGE, Parsed(v));
      case None =>
        assert emitted[|old(emitted)|..] == [];
    }

    /** reconnect(): while attempts remain, count one and set a timer for
        connect; otherwise emit maxReconnectAttemptsReached. */
    method Reconnect()
      requires Valid()
      modifies this`reconnectAttempts, this`pendingRetries, this`retriesScheduled,
               this`emitted, this`deliveries
      ensures Valid()
      ensures State() == Lifecycle.Reconnect(old(State()), options.maxReconnectAttempts)
      ensures DeliveredSince(old(deliveries), old(emitted))
    {
      if reconnectAttempts < options.maxReconnectAttempts {
        reconnectAttempts := reconnectAttempts + 1;
        pendingRetries := pendingRetries + 1;  // setTimeout(connect, reconnectInterval)
        retriesScheduled := retriesScheduled + 1;
        assert emitted[|old(emitted)|..] == [];
      } else {
        Emit(MAX_RECONNECT_ATTEMPTS_REACHED, NoPayload);
      }
    }

    /** A timer set by reconnect fires and runs connect. */
    method RetryTimerFires(failure: Option<TransportError>)
      requires Valid() && pendingRetries > 0
      modifies this`pendingRetries, this`ws, this`emitted, this`deliveries
      ensures Valid()
      ensures State() == Step(old(State()), options.maxReconnectAttempts, RetryTimerFired(failure))
      ensures DeliveredSince(old(deliveries), old(emitted))
    {
      pendingRetries := pendingRetries - 1;
      Connect(failure);
    }

    /** handleError(error): emit error with the error value. */
    method HandleError(error: TransportError)
      modifies this`emitted, this`deliveries
      ensures State() == Lifecycle.HandleError(old(State()), error)
      ensures DeliveredSince(old(deliveries), old(emitted))
    {
      Emit(ERROR, Failure(error));
    }

    /** send(data): pass the serialised value to the socket only when it is OPEN. */
    method Send(data: Json)
      modifies this`frames
      ensures State() == Step(old(State()), options.maxReconnectAttempts, SendCalled(data))
    {
      if ws.Socket? && ws.state == Open {
        frames := frames + [data];
      }
    }

    /** on(event, handler): add the handler to the event's set, creating the set if missing. */
    method On(event: string, handler: HandlerId)
      requires Valid()
      modifies this`handlers
      ensures Valid()
      ensures handlers == Register(old(handlers), event, handler)
    {
      if event !in handlers {
        handlers := handlers[event := []];
      }
      if handler !in handlers[event] {
        handlers := handlers[event := handlers[event] + [handler]];
      }
      RegisterPreservesWellFormed(old(handlers), event, handler);
    }

    /** emit(event, data): invoke every handler in the event's set once with
        `data`; nothing when the event has no set. */
    method Emit(event: string, data: Payload)
      modifies this`emitted, this`deliveries
      ensures emitted == old(emitted) + [Emission(event, data)]
      ensures deliveries == old(deliveries) + Dispatch(handlers, Emission(event, data))
      ensures DeliveredSince(old(deliveries), old(emitted))
    {
      var hs := HandlersOf(handlers, event);
      for i := 0 to |hs|
        invariant emitted == old(emitted)
        invariant deliveries == old(deliveries) + DeliverAll(event, hs[..i], data)
      {
        assert hs[..i + 1][..i] == hs[..i];
        deliveries := deliveries + [Delivery(event, hs[i], data)];
      }
      assert hs[..|hs|] == hs;
      emitted := emitted + [Emission(event, data)];
      assert emitted[|old(emitted)|..] == [Emission(event, data)];
      DeliveriesForOne(handlers, Emission(event, data));
    }

    /** close(): ask the socket, if there is one, to close. */
    method Close()
      modifies this`ws
      ensures State() == Step(old(State()), options.maxReconnectAttempts, CloseCalled)
    {
      if ws.Socket? && (ws.state == Connecting || ws.state == Open) {
        ws := Socket(Closing);  // readyState as the browser sets it on ws.close()
      }
    }
  }
}
