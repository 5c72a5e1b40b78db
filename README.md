# Reconnecting WebSocket client — a Dafny model

This project models `WebSocketClient` (`src/utils/websocket.js`). The class wraps
one browser WebSocket. It reconnects after a close, up to `maxReconnectAttempts`
times. It parses inbound JSON frames and re-emits transport events
(`connected`, `disconnected`, `message`, `error`, `maxReconnectAttemptsReached`)
to handlers registered with `on`.

The model has two parts.

- A pure specification.
  - `Lifecycle` is the reconnect state machine. Its `Machine` holds the attempt
    counter, the retries waiting on a timer, the socket's ready state, and the
    logs of emitted events and sent frames. `Step` gives the client's reaction
    to each callback or call, and `Run` applies a series of them.
  - `Listeners` is the handler registry: a map from event name to a handler
    set, with `Register` (`on`) and `Dispatch` (the delivery loop of `emit`).
- The class `WebSocket.WebSocketClient`.
  - It has the source's mutable fields: `reconnectAttempts`, `ws`, `handlers`
    and the options.
  - Each transport callback is a method: `OnOpen`, `OnClose`, `OnError` and
    `OnMessage`. A fired reconnect timer is `RetryTimerFires`.
  - The public calls are methods too: `Connect`, `Send`, `On`, `Emit` and
    `Close`.
  - Each transport callback, the timer method, the browser-side
    `ClosingHandshakeStarts`, and the public calls `Send` and `Close` are
    proved to change the client's state exactly as `Step` says for that input.
    `Connect`, `Reconnect` and `HandleError` are proved against the functions
    of the same name in `Lifecycle`. `On` is proved against `Register`.
    `Emit` states its update of the two logs directly.
  - Every emitting method is also proved to call exactly the handlers that
    `DeliveriesFor` lists for the events it emitted. `Emit` does this with a
    loop over the handler set, like the source's `forEach`.

Handlers are opaque identities (`nat`). A JavaScript `Set` holds each handler
once and iterates in insertion order, so a handler set is modelled as a
sequence without duplicates. The model does not use Dafny's unordered `set`.
Two values come from libraries: what `JSON.parse` returns, and what the
transport reports as an error. Both are opaque types, `Json` and
`TransportError`.

Outside influences become method inputs:

- `OnMessage` receives the outcome of `JSON.parse` (`None` when it throws).
- `Connect` and `RetryTimerFires` receive the outcome of `new WebSocket(url)`
  (`Some(e)` when the constructor throws).

The browser changes `readyState` on its own, and `send` reads it. The model
covers these changes:

- before onopen, the socket becomes OPEN;
- before onerror, the socket is already CLOSED;
- before onclose, the socket becomes CLOSED;
- when the server starts the closing handshake, an OPEN socket becomes
  CLOSING with no callback (`ClosingHandshakeStarts`, input `TransportClosing`);
- `close()` moves a CONNECTING or OPEN socket to CLOSING, as the WebSocket
  standard prescribes.

Two facts about the source:

- Handler sets iterate in insertion order, as JavaScript sets do.
- `close()` cancels no pending retry. The close event that follows it
  schedules a retry like any other close (`CloseDoesNotCancelRetry`).

## Model

| member | source | states |
|---|---|---|
| Lifecycle.MergeOptions | src/utils/websocket.js:4-8 | each option the caller supplies replaces its default; a missing key gets its default (3000 ms, 5 attempts) |
| WebSocket.WebSocketClient.constructor | src/utils/websocket.js:2-12 | url and merged options are stored; there are no handlers and the counter is 0; then connect runs; an error from that first connect reaches no handler |
| WebSocket.WebSocketClient.Connect | src/utils/websocket.js:14-21 | connect installs a fresh CONNECTING socket, or, if the WebSocket constructor throws, emits error with the thrown value and keeps the old socket |
| WebSocket.WebSocketClient.OnOpen | src/utils/websocket.js:24-27 | the open callback sets the counter to 0 and emits connected to every handler registered for it |
| WebSocket.WebSocketClient.OnClose | src/utils/websocket.js:29-32 | the close callback emits disconnected, then makes the reconnect decision; handlers receive the events in that order |
| WebSocket.WebSocketClient.OnError | src/utils/websocket.js:34-36 | the error callback emits error with the error value on a socket that is already CLOSED; the counter and pending retries are unchanged |
| WebSocket.WebSocketClient.ClosingHandshakeStarts | src/utils/websocket.js:63 | the readyState that send reads: the browser moves an OPEN socket to CLOSING without a callback, and nothing else changes |
| WebSocket.WebSocketClient.OnMessage | src/utils/websocket.js:38-45 | a parsed payload emits one message event with the parsed value; a parse failure emits nothing and changes nothing |
| WebSocket.WebSocketClient.Reconnect | src/utils/websocket.js:48-55 | below the maximum, the counter grows by one and one timer is set; at the maximum, maxReconnectAttemptsReached is emitted and nothing is scheduled; the counter stays within [0, max] |
| WebSocket.WebSocketClient.RetryTimerFires | src/utils/websocket.js:51 | a pending timer is used up and runs connect |
| WebSocket.WebSocketClient.HandleError | src/utils/websocket.js:57-60 | handleError emits error carrying the error value, and does nothing else |
| WebSocket.WebSocketClient.Send | src/utils/websocket.js:62-66 | exactly one frame carrying the data is sent when the socket is OPEN; otherwise nothing changes |
| WebSocket.WebSocketClient.On | src/utils/websocket.js:68-73 | on leaves the registry equal to Register applied to the old registry, and every handler set stays free of duplicates |
| WebSocket.WebSocketClient.Emit | src/utils/websocket.js:75-80 | emit records one emission and calls each handler of the event's set once with the data, in set order; an event without a set calls no handler |
| WebSocket.WebSocketClient.Close | src/utils/websocket.js:82-86 | close asks an existing CONNECTING or OPEN socket to close; without a socket, or when the socket is already closing or closed, nothing changes |
| Listeners.Register | src/utils/websocket.js:68-73 | on creates the event's set if it is missing; it appends the handler unless the handler is already there; no other event's set changes |
| Listeners.RegisterAdds | src/utils/websocket.js:68-73 | after on(e, h), the set for e holds exactly its old handlers plus h |
| Listeners.RegisterPreservesWellFormed | src/utils/websocket.js:68-73 | on never puts a handler into a set twice |
| Listeners.RegisterIdempotent | src/utils/websocket.js:68-73 | registering the same handler a second time leaves the registry unchanged |
| Listeners.DeliverAll | src/utils/websocket.js:78 | forEach makes one call per handler in the set, in set order, each with the same data |
| Listeners.DeliverAllExactlyOnce | src/utils/websocket.js:75-80 | emit calls each registered handler exactly once with the data and calls no unregistered handler |
| Listeners.DispatchWithoutListeners | src/utils/websocket.js:76-77 | emit on an event with no set calls nothing |
| Listeners.RegisterTwiceDeliversOnce | src/utils/websocket.js:68-80 | a handler registered twice is still called once per emit |
| Listeners.NothingDeliveredWithoutRegistry | src/utils/websocket.js:9-11 | with the empty registry the constructor starts with, no emitted event reaches a handler |
| Lifecycle.StepMovesCounter | src/utils/websocket.js:24-55 | the counter changes in only two ways: an open resets it to 0, and a close with attempts below the maximum adds one |
| Lifecycle.RunStaysWithinBudget | src/utils/websocket.js:24-55 | whatever happens, reconnectAttempts stays in [0, maxReconnectAttempts], or at 0 when the maximum is negative |
| Lifecycle.ClosesWithoutOpen | src/utils/websocket.js:29-55 | with no open in between, each close schedules one retry until max - attempts retries are spent; each later close emits maxReconnectAttemptsReached; every close emits disconnected |
| Lifecycle.FullBudgetAfterOpen | src/utils/websocket.js:24-55 | after an open, the next up to max closes each schedule a retry, whatever the counter was before |
| Lifecycle.ExhaustionAfterMaxCloses | src/utils/websocket.js:48-55 | from a counter of 0, N closes schedule exactly N retries and no exhaustion event; close N+1 schedules nothing and emits maxReconnectAttemptsReached once |
| Lifecycle.ExhaustedClosesScheduleNothing | src/utils/websocket.js:48-55 | once the counter has reached the maximum, every further close emits maxReconnectAttemptsReached and schedules no retry |
| Lifecycle.OpenResetsCounter | src/utils/websocket.js:24-27 | open sets the counter to 0 and emits connected; pending retries and frames are unchanged |
| Lifecycle.CloseOutcomes | src/utils/websocket.js:29-55 | a close emits disconnected first; then it either adds exactly one attempt and one retry and emits nothing more, or emits maxReconnectAttemptsReached with the counter unchanged |
| Lifecycle.ErrorReportsClosedSocket | src/utils/websocket.js:34-36 | an error event appends one error emission carrying the error value; its socket is CLOSED; nothing else changes |
| Lifecycle.NoSendAfterClosingOrError | src/utils/websocket.js:62-66 | once the server has started closing, or an error was reported, send transmits nothing, even before onclose |
| Lifecycle.MessageOutcomes | src/utils/websocket.js:38-45 | a parsed message appends exactly one message emission with the value; an unparsable one leaves the whole state unchanged |
| Lifecycle.SendOnlyWhenOpen | src/utils/websocket.js:62-66 | send appends exactly the data to the frames when the socket is OPEN; in every other state it is a no-op |
| Lifecycle.CloseDoesNotCancelRetry | src/utils/websocket.js:82-86 | close() on an open socket, followed by its close event, still schedules a retry while attempts remain |
| Lifecycle.FailedRetryReportsError | src/utils/websocket.js:14-21 | a retry whose WebSocket constructor throws emits error with the thrown value; it uses up the timer, creates no socket (the old one is kept) and leaves the counter unchanged |
| Lifecycle.Step | src/utils/websocket.js:24-86 | the reaction to any one callback, timer or call: the event and frame logs only grow; a frame appears only when send runs on an OPEN socket, and it carries exactly the data; at most two events are emitted; at most one retry is scheduled |
| Lifecycle.Connect | src/utils/websocket.js:14-21 | connect changes neither the counter, the retries nor the frames; on success the socket becomes a new CONNECTING one and nothing is emitted; on a throw the socket is kept and only the error is emitted |
| Lifecycle.Reconnect | src/utils/websocket.js:48-55 | below the maximum: one more attempt, one more pending retry, nothing emitted; at or above it: counter and retries unchanged and exactly the exhaustion event emitted; the budget invariant is preserved |
| Lifecycle.Send | src/utils/websocket.js:62-66 | frames grow by exactly the data if and only if the socket is OPEN; nothing but the frames ever changes |
| Lifecycle.RequestClose | src/utils/websocket.js:82-86 | after ws.close() a socket is neither CONNECTING nor OPEN; a CLOSING or CLOSED socket, or no socket, is left as it was |
| Listeners.Dispatch | src/utils/websocket.js:75-80 | emit makes one call per handler in the event's set, and every call is to a registered handler, with this event and this data |
| Lifecycle.TwoRetriesThenExhaustion | src/utils/websocket.js:24-55 | with maxReconnectAttempts 2: open, close, retry, close, retry, close gives two retries, then one maxReconnectAttemptsReached |

## Left out

- vite.config.js is build configuration and is not part of this model.
- The browser WebSocket is reduced to its `readyState` and a log of sent values (`frames`). Its construction, `send` and `close` are not modelled as I/O.
- Callbacks of replaced sockets: the source leaves an old socket's callbacks bound after `connect()` replaces it. The model only receives callbacks from the current socket.
- The `setTimeout` delay is not modelled, and `reconnectInterval` is stored but never read. A scheduled connect is a count of pending timers.
- `JSON.parse` and `JSON.stringify` are opaque. A parse is an `Option<Json>` input. A frame is the value passed to `JSON.stringify`, not its text.
- The `console.error` diagnostics are not modelled.
- What a handler does is not modelled, including a handler that throws. In the source a throwing handler has three effects. It stops delivery to the handlers after it. A throwing `disconnected` handler also ends onclose before `reconnect()` runs, so no retry is scheduled and no exhaustion event is emitted. A throwing `message` handler is caught by onmessage's catch and logged as if the payload had failed to parse. A handler calling `on` or `emit` from inside a dispatch is not modelled either.
- Lifecycle.MergeOptions: only the two recognised keys, with integer values or absent. An explicitly `undefined` value, a non-integer or non-number value, and unknown keys (the spread copies them, but nothing reads them) are not modelled.
