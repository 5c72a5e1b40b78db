/**
 * The reconnect state machine of WebSocketClient, as values: the merged
 * options, the attempt counter, the retries waiting on a timer, the transport's
 * ready state, and the logs of emitted events and transmitted frames. Each
 * transport callback and each public call is one `Input`; `Step` is what the
 * client does with it and `Run` folds a series of inputs.
 */
module Lifecycle {
  import opened Wrappers
  import opened Events

  const DEFAULT_RECONNECT_INTERVAL: int := 3000
  const DEFAULT_MAX_RECONNECT_ATTEMPTS: int := 5

  /** `this.options` after the merge. */
  datatype Options = Options(reconnectInterval: int, maxReconnectAttempts: int)

  /** The `options` argument of the constructor; `None` is a key the caller left out. */
  datatype GivenOptions = GivenOptions(reconnectInterval: Option<int>, maxReconnectAttempts: Option<int>)

  /** `{reconnectInterval: 3000, maxReconnectAttempts: 5, ...options}`. */
  function MergeOptions(given: GivenOptions): (o: Options)
    ensures given.reconnectInterval.Some? ==> o.reconnectInterval == given.reconnectInterval.value
    ensures given.reconnectInterval.None? ==> o.reconnectInterval == DEFAULT_RECONNECT_INTERVAL
    ensures given.maxReconnectAttempts.Some? ==> o.maxReconnectAttempts == given.maxReconnectAttempts.value
    ensures given.maxReconnectAttempts.None? ==> o.maxReconnectAttempts == DEFAULT_MAX_RECONNECT_ATTEMPTS
  {
    Options(given.reconnectInterval.GetOr(DEFAULT_RECONNECT_INTERVAL),
            given.maxReconnectAttempts.GetOr(DEFAULT_MAX_RECONNECT_ATTEMPTS))
  }

  /** `readyState` of a WebSocket. */
  datatype ReadyState = Connecting | Open | Closing | Closed

  /** `this.ws`: undefined until a WebSocket was created, then the latest one. */
  datatype Transport = NoSocket | Socket(state: ReadyState)

  datatype Machine = Machine(
    reconnectAttempts: int,
    pendingRetries: nat,      // timers set by reconnect that have not fired yet
    retriesScheduled: nat,    // timers set by reconnect so far
    ws: Transport,
    emitted: seq<Emission>,   // every emit call, in order
    frames: seq<Json>)        // every value handed to ws.send, in order

  /** The state right after the constructor's field initialisation, before its connect(). */
  function Initial(): Machine
  {
    Machine(0, 0, 0, NoSocket, [], [])
  }

  /** What reaches the client: the four transport callbacks, the browser
      starting a closing handshake (no callback), a reconnect timer firing, and
      the public calls that touch the transport. */
  datatype Input =
    | TransportOpened
    | TransportClosing                          // readyState OPEN -> CLOSING, no event fires
    | TransportClosed
    | TransportErrored(error: TransportError)   // readyState is already CLOSED when onerror runs
    | MessageArrived(parsed: Option<Json>)   // the outcome of JSON.parse(event.data)
    | RetryTimerFired(failure: Option<TransportError>)
    | ConnectCalled(failure: Option<TransportError>)  // Some(e): new WebSocket(url) threw e
    | SendCalled(data: Json)
    | CloseCalled

  /** The browser's own change of readyState on the current socket, if any. */
  function WithState(ws: Transport, s: ReadyState): Transport
  {
    if ws.Socket? then Socket(s) else ws
  }

  /** ws.close(): a connecting or open socket starts closing; otherwise nothing happens. */
  function RequestClose(ws: Transport): (r: Transport)
    ensures r.Socket? <==> ws.Socket?
    ensures r.Socket? ==> r.state != Connecting && r.state != Open
    ensures ws.Socket? && ws.state != Connecting && ws.state != Open ==> r == ws
  {
    if ws == Socket(Connecting) || ws == Socket(Open) then Socket(Closing) else ws
  }

  function Emit(m: Machine, em: Emission): Machine
  {
    m.(emitted := m.emitted + [em])
  }

  function HandleError(m: Machine, error: TransportError): Machine
  {
    Emit(m, Emission(ERROR, Failure(error)))
  }

  /** connect(): a fresh socket in CONNECTING, or the constructor's error routed to handleError. */
  function Connect(m: Machine, failure: Option<TransportError>): (r: Machine)
    ensures r.reconnectAttempts == m.reconnectAttempts && r.pendingRetries == m.pendingRetries
    ensures r.retriesScheduled == m.retriesScheduled && r.frames == m.frames
    ensures failure.None? ==> r.ws == Socket(Connecting) && r.emitted == m.emitted
    ensures failure.Some? ==> r.ws == m.ws && r.emitted == m.emitted + [Emission(ERROR, Failure(failure.value))]
  {
    match failure
    case None => m.(ws := Socket(Connecting))
    case Some(e) => HandleError(m, e)
  }

  /** reconnect(): one more retry while the budget lasts, otherwise the exhaustion event. */
  function Reconnect(m: Machine, max: int): (r: Machine)
    ensures WithinBudget(m.reconnectAttempts, max) ==> WithinBudget(r.reconnectAttempts, max)
    ensures r.ws == m.ws && r.frames == m.frames
    ensures m.reconnectAttempts < max ==>
      && r.reconnectAttempts == m.reconnectAttempts + 1
      && r.pendingRetries == m.pendingRetries + 1
      && r.retriesScheduled == m.retriesScheduled + 1
      && r.emitted == m.emitted
    ensures max <= m.reconnectAttempts ==>
      && r.reconnectAttempts == m.reconnectAttempts
      && r.pendingRetries == m.pendingRetries
      && r.retriesScheduled == m.retriesScheduled
      && r.emitted == m.emitted + [EXHAUSTED_EMISSION]
  {
    if m.reconnectAttempts < max then
      m.(reconnectAttempts := m.reconnectAttempts + 1,
         pendingRetries := m.pendingRetries + 1,
         retriesScheduled := m.retriesScheduled + 1)
    else
      Emit(m, EXHAUSTED_EMISSION)
  }

  /** send(data): transmit only on an OPEN socket. */
  function Send(m: Machine, data: Json): (r: Machine)
    ensures r.frames == m.frames + [data] || r.frames == m.frames
    ensures r.frames != m.frames <==> m.ws == Socket(Open)
    ensures r.(frames := m.frames) == m
  {
    if m.ws == Socket(Open) then m.(frames := m.frames + [data]) else m
  }

  /** The client's reaction to one input. Both logs only ever grow; a frame is
      sent only by send on an OPEN socket; one input emits at most two events. */
  function Step(m: Machine, max: int, input: Input): (r: Machine)
    ensures m.emitted <= r.emitted && |r.emitted| <= |m.emitted| + 2
    ensures m.frames <= r.frames
    ensures r.frames != m.frames ==>
      input.SendCalled? && m.ws == Socket(Open) && r.frames == m.frames + [input.data]
    ensures m.retriesScheduled <= r.retriesScheduled <= m.retriesScheduled + 1
  {
    match input
    case TransportOpened =>
      Emit(m.(reconnectAttempts := 0, ws := WithState(m.ws, Open)), CONNECTED_EMISSION)
    case TransportClosed =>
      Reconnect(Emit(m.(ws := WithState(m.ws, Closed)), DISCONNECTED_EMISSION), max)
    case TransportClosing =>
      m.(ws := if m.ws == Socket(Open) then Socket(Closing) else m.ws)
    case TransportErrored(e) =>
      HandleError(m.(ws := WithState(m.ws, Closed)), e)
    case MessageArrived(parsed) =>
      (match parsed
       case Some(v) => Emit(m, Emission(MESSAGE, Parsed(v)))
       case None => m)
    case RetryTimerFired(failure) =>
      if m.pendingRetries == 0 then m
      else Connect(m.(pendingRetries := m.pendingRetries - 1), failure)
    case ConnectCalled(failure) =>
      Connect(m, failure)
    case SendCalled(data) =>
      Send(m, data)
    case CloseCalled =>
      m.(ws := RequestClose(m.ws))
  }

  function Run(m: Machine, max: int, inputs: seq<Input>): Machine
    decreases |inputs|
  {
    if inputs == [] then m else Run(Step(m, max, inputs[0]), max, inputs[1..])
  }

  // ---------------------------------------------------------------- the attempt counter

  /** reconnectAttempts lies in [0, max]; with a negative max it can only be 0. */
  predicate WithinBudget(attempts: int, max: int)
  {
    0 <= attempts && (attempts <= max || attempts == 0)
  }

  /** The counter is only ever kept, reset to 0 by an open, or raised by one under the guard `< max`. */
  lemma StepMovesCounter(m: Machine, max: int, input: Input)
    ensures var a := Step(m, max, input).reconnectAttempts;
            || a == m.reconnectAttempts
            || (a == 0 && input.TransportOpened?)
            || (a == m.reconnectAttempts + 1 && m.reconnectAttempts < max && input.TransportClosed?)
  {
  }

  lemma {:induction false} RunStaysWithinBudget(m: Machine, max: int, inputs: seq<Input>)
    requires WithinBudget(m.reconnectAttempts, max)
    ensures WithinBudget(Run(m, max, inputs).reconnectAttempts, max)
    decreases |inputs|
  {
    if inputs != [] {
      StepMovesCounter(m, max, inputs[0]);
      RunStaysWithinBudget(Step(m, max, inputs[0]), max, inputs[1..]);
    }
  }

  lemma {:induction false} RunAppend(m: Machine, max: int, a: seq<Input>, b: seq<Input>)
    ensures Run(m, max, a + b) == Run(Run(m, max, a), max, b)
    decreases |a|
  {
    if a == [] {
      assert a + b == b;
    } else {
      assert (a + b)[0] == a[0];
      assert (a + b)[1..] == a[1..] + b;
      RunAppend(Step(m, max, a[0]), max, a[1..], b);
    }
  }

  // ---------------------------------------------------------------- closes and retries

  predicate NoOpen(inputs: seq<Input>)
  {
    forall i | 0 <= i < |inputs| :: !inputs[i].TransportOpened?
  }

  function CloseCount(inputs: seq<Input>): nat
  {
    if inputs == [] then 0
    else (if inputs[0].TransportClosed? then 1 else 0) + CloseCount(inputs[1..])
  }

  function Min(a: int, b: int): int
  {
    if a <= b then a else b
  }

  /** One input that is not an open: a close spends one attempt or, with none
      left, emits the exhaustion event; anything else leaves the counter, the
      retries and both counted events alone. */
  lemma StepWithoutOpen(m: Machine, max: int, input: Input)
    requires !input.TransportOpened?
    ensures var r := Step(m, max, input);
            var retry := input.TransportClosed? && m.reconnectAttempts < max;
            && r.reconnectAttempts == m.reconnectAttempts + (if retry then 1 else 0)
            && r.retriesScheduled == m.retriesScheduled + (if retry then 1 else 0)
            && Occurrences(r.emitted, DISCONNECTED_EMISSION)
               == Occurrences(m.emitted, DISCONNECTED_EMISSION) + (if input.TransportClosed? then 1 else 0)
            && Occurrences(r.emitted, EXHAUSTED_EMISSION)
               == Occurrences(m.emitted, EXHAUSTED_EMISSION) + (if input.TransportClosed? && !retry then 1 else 0)
  {
    var r := Step(m, max, input);
    match input
    case TransportClosed =>
      var m1 := Emit(m.(ws := WithState(m.ws, Closed)), DISCONNECTED_EMISSION);
      OccurrencesSnoc(m.emitted, DISCONNECTED_EMISSION, DISCONNECTED_EMISSION);
      OccurrencesSnoc(m.emitted, DISCONNECTED_EMISSION, EXHAUSTED_EMISSION);
      if m.reconnectAttempts >= max {
        OccurrencesSnoc(m1.emitted, EXHAUSTED_EMISSION, DISCONNECTED_EMISSION);
        OccurrencesSnoc(m1.emitted, EXHAUSTED_EMISSION, EXHAUSTED_EMISSION);
      }
    case TransportClosing =>
    case TransportErrored(e) =>
      OccurrencesSnoc(m.emitted, Emission(ERROR, Failure(e)), DISCONNECTED_EMISSION);
      OccurrencesSnoc(m.emitted, Emission(ERROR, Failure(e)), EXHAUSTED_EMISSION);
    case MessageArrived(parsed) =>
      if parsed.Some? {
        OccurrencesSnoc(m.emitted, Emission(MESSAGE, Parsed(parsed.value)), DISCONNECTED_EMISSION);
        OccurrencesSnoc(m.emitted, Emission(MESSAGE, Parsed(parsed.value)), EXHAUSTED_EMISSION);
      }
    case RetryTimerFired(failure) =>
      if m.pendingRetries > 0 && failure.Some? {
        var m1 := m.(pendingRetries := m.pendingRetries - 1);
        OccurrencesSnoc(m1.emitted, Emission(ERROR, Failure(failure.value)), DISCONNECTED_EMISSION);
        OccurrencesSnoc(m1.emitted, Emission(ERROR, Failure(failure.value)), EXHAUSTED_EMISSION);
      }
    case ConnectCalled(failure) =>
      if failure.Some? {
        OccurrencesSnoc(m.emitted, Emission(ERROR, Failure(failure.value)), DISCONNECTED_EMISSION);
        OccurrencesSnoc(m.emitted, Emission(ERROR, Failure(failure.value)), EXHAUSTED_EMISSION);
      }
    case SendCalled(_) =>
    case CloseCalled =>
  }

  /** Any run with no successful open in it: each close schedules one retry
      until the budget `max - reconnectAttempts` is spent, and every close after
      that emits maxReconnectAttemptsReached instead. Every close emits
      disconnected. */
  lemma {:induction false} ClosesWithoutOpen(m: Machine, max: int, inputs: seq<Input>)
    requires 0 <= m.reconnectAttempts <= max
    requires NoOpen(inputs)
    ensures var r := Run(m, max, inputs);
            var retries := Min(CloseCount(inputs), max - m.reconnectAttempts);
            && r.reconnectAttempts == m.reconnectAttempts + retries
            && r.retriesScheduled == m.retriesScheduled + retries
            && Occurrences(r.emitted, DISCONNECTED_EMISSION)
               == Occurrences(m.emitted, DISCONNECTED_EMISSION) + CloseCount(inputs)
            && Occurrences(r.emitted, EXHAUSTED_EMISSION)
               == Occurrences(m.emitted, EXHAUSTED_EMISSION) + (CloseCount(inputs) - retries)
    decreases |inputs|
  {
    if inputs != [] {
      assert !inputs[0].TransportOpened?;
      StepWithoutOpen(m, max, inputs[0]);
      assert NoOpen(inputs[1..]) by {
        forall i | 0 <= i < |inputs[1..]| ensures !inputs[1..][i].TransportOpened? {
          assert inputs[1..][i] == inputs[i + 1];
        }
      }
      ClosesWithoutOpen(Step(m, max, inputs[0]), max, inputs[1..]);
    }
  }

  /** An open restores the full budget: the closes that follow, up to `max` of
      them, each schedule a retry, whatever the counter was before. */
  lemma FullBudgetAfterOpen(m: Machine, max: int, inputs: seq<Input>)
    requires 0 <= max
    requires NoOpen(inputs)
    ensures var r := Run(m, max, [TransportOpened] + inputs);
            var retries := Min(CloseCount(inputs), max);
            && r.reconnectAttempts == retries
            && r.retriesScheduled == m.retriesScheduled + retries
            && Occurrences(r.emitted, EXHAUSTED_EMISSION)
               == Occurrences(m.emitted, EXHAUSTED_EMISSION) + (CloseCount(inputs) - retries)
  {
    var afterOpen := Step(m, max, TransportOpened);
    RunAppend(m, max, [TransportOpened], inputs);
    assert Run(m, max, [TransportOpened]) == Run(afterOpen, max, []);
    OccurrencesSnoc(m.emitted, CONNECTED_EMISSION, EXHAUSTED_EMISSION);
    ClosesWithoutOpen(afterOpen, max, inputs);
  }

  /** `k` transport closes in a row. */
  function Closes(k: nat): (s: seq<Input>)
    ensures |s| == k
    ensures forall i | 0 <= i < k :: s[i] == TransportClosed
  {
    if k == 0 then [] else [TransportClosed] + Closes(k - 1)
  }

  lemma {:induction false} CloseCountOfCloses(k: nat)
    ensures CloseCount(Closes(k)) == k
  {
    if k > 0 {
      assert Closes(k)[1..] == Closes(k - 1);
      CloseCountOfCloses(k - 1);
    }
  }

  /** From a fresh counter, `max` closes schedule exactly `max` retries and no
      exhaustion event; close number `max + 1` schedules nothing and emits
      maxReconnectAttemptsReached, once. */
  lemma ExhaustionAfterMaxCloses(m: Machine, max: int)
    requires m.reconnectAttempts == 0 <= max
    ensures var r := Run(m, max, Closes(max));
            && r.retriesScheduled == m.retriesScheduled + max
            && Occurrences(r.emitted, EXHAUSTED_EMISSION) == Occurrences(m.emitted, EXHAUSTED_EMISSION)
    ensures var r := Run(m, max, Closes(max + 1));
            && r.retriesScheduled == m.retriesScheduled + max
            && Occurrences(r.emitted, EXHAUSTED_EMISSION) == Occurrences(m.emitted, EXHAUSTED_EMISSION) + 1
  {
    CloseCountOfCloses(max);
    CloseCountOfCloses(max + 1);
    ClosesWithoutOpen(m, max, Closes(max));
    ClosesWithoutOpen(m, max, Closes(max + 1));
  }

  /** Once exhausted, further closes never schedule a retry. */
  lemma ExhaustedClosesScheduleNothing(m: Machine, max: int, k: nat)
    requires 0 <= max == m.reconnectAttempts
    ensures var r := Run(m, max, Closes(k));
            && r.retriesScheduled == m.retriesScheduled
            && r.reconnectAttempts == max
            && Occurrences(r.emitted, EXHAUSTED_EMISSION) == Occurrences(m.emitted, EXHAUSTED_EMISSION) + k
  {
    CloseCountOfCloses(k);
    ClosesWithoutOpen(m, max, Closes(k));
  }

  // ---------------------------------------------------------------- the other callbacks

  /** The open callback resets the counter and emits connected. */
  lemma OpenResetsCounter(m: Machine, max: int)
    ensures var r := Step(m, max, TransportOpened);
            r.reconnectAttempts == 0 && r.emitted == m.emitted + [CONNECTED_EMISSION]
            && r.pendingRetries == m.pendingRetries && r.frames == m.frames
  {
  }

  /** Every close emits disconnected before the reconnect decision; the decision
      either schedules one retry and emits nothing more, or schedules nothing
      and emits maxReconnectAttemptsReached. */
  lemma CloseOutcomes(m: Machine, max: int)
    ensures var r := Step(m, max, TransportClosed);
            if m.reconnectAttempts < max then
              && r.emitted == m.emitted + [DISCONNECTED_EMISSION]
              && r.reconnectAttempts == m.reconnectAttempts + 1
              && r.pendingRetries == m.pendingRetries + 1
            else
              && r.emitted == m.emitted + [DISCONNECTED_EMISSION, EXHAUSTED_EMISSION]
              && r.reconnectAttempts == m.reconnectAttempts
              && r.pendingRetries == m.pendingRetries
  {
  }

  /** The error callback emits error with the error value; the socket it
      reports on is already CLOSED; the counter and the retries stay as they were. */
  lemma ErrorReportsClosedSocket(m: Machine, max: int, e: TransportError)
    ensures Step(m, max, TransportErrored(e))
            == m.(ws := WithState(m.ws, Closed), emitted := m.emitted + [Emission(ERROR, Failure(e))])
  {
  }

  /** Once the server has started closing, or an error has been reported, send
      transmits nothing, though onclose has not run yet. */
  lemma NoSendAfterClosingOrError(m: Machine, max: int, e: TransportError, data: Json)
    requires m.ws == Socket(Open)
    ensures var closing := Step(m, max, TransportClosing);
            Step(closing, max, SendCalled(data)) == closing
    ensures var errored := Step(m, max, TransportErrored(e));
            Step(errored, max, SendCalled(data)) == errored
  {
  }

  /** A payload that parses emits exactly one message event with the parsed
      value; one that does not parse changes nothing at all. */
  lemma MessageOutcomes(m: Machine, max: int, parsed: Option<Json>)
    ensures parsed.Some? ==>
      Step(m, max, MessageArrived(parsed)) == m.(emitted := m.emitted + [Emission(MESSAGE, Parsed(parsed.value))])
    ensures parsed.None? ==> Step(m, max, MessageArrived(parsed)) == m
  {
  }

  /** send transmits exactly one frame, the given value, on an OPEN socket and
      otherwise changes nothing. */
  lemma SendOnlyWhenOpen(m: Machine, max: int, data: Json)
    ensures m.ws == Socket(Open) ==> Step(m, max, SendCalled(data)) == m.(frames := m.frames + [data])
    ensures m.ws != Socket(Open) ==> Step(m, max, SendCalled(data)) == m
  {
  }

  /** close() does not cancel reconnecting: the close event it leads to
      schedules a retry like any other while the budget lasts. */
  lemma CloseDoesNotCancelRetry(m: Machine, max: int)
    requires m.ws == Socket(Open) && m.reconnectAttempts < max
    ensures var r := Run(m, max, [CloseCalled, TransportClosed]);
            r.pendingRetries == m.pendingRetries + 1 && r.ws == Socket(Closed)
  {
    var closing := Step(m, max, CloseCalled);
    assert closing.ws == Socket(Closing);
    assert Run(m, max, [CloseCalled, TransportClosed]) == Run(closing, max, [TransportClosed]);
    assert Run(closing, max, [TransportClosed]) == Step(closing, max, TransportClosed);
  }

  /** A retry whose connect throws reports the error, uses up its timer and
      creates no socket: the client keeps the old one and its counter. */
  lemma FailedRetryReportsError(m: Machine, max: int, e: TransportError)
    requires m.pendingRetries > 0
    ensures var r := Step(m, max, RetryTimerFired(Some(e)));
            && r.emitted == m.emitted + [Emission(ERROR, Failure(e))]
            && r.ws == m.ws && r.pendingRetries == m.pendingRetries - 1
            && r.reconnectAttempts == m.reconnectAttempts
  {
  }

  /** With maxReconnectAttempts = 2: open, close, then twice a retry whose
      socket closes without opening; two retries, then one exhaustion event. */
  lemma TwoRetriesThenExhaustion(m: Machine)
    requires m == Connect(Initial(), None)
    ensures var r := Run(m, 2, [TransportOpened, TransportClosed,
                                RetryTimerFired(None), TransportClosed,
                                RetryTimerFired(None), TransportClosed]);
            && r.retriesScheduled == 2 && r.pendingRetries == 0
            && r.emitted == [CONNECTED_EMISSION, DISCONNECTED_EMISSION, DISCONNECTED_EMISSION,
                             DISCONNECTED_EMISSION, EXHAUSTED_EMISSION]
  {
    var inputs := [TransportOpened, TransportClosed, RetryTimerFired(None), TransportClosed,
                   RetryTimerFired(None), TransportClosed];
    // walk the six inputs one step at a time
    var s1 := Step(m, 2, inputs[0]);
    var s2 := Step(s1, 2, inputs[1]);
    var s3 := Step(s2, 2, inputs[2]);
    var s4 := Step(s3, 2, inputs[3]);
    var s5 := Step(s4, 2, inputs[4]);
    var s6 := Step(s5, 2, inputs[5]);
    assert Run(s5, 2, inputs[5..]) == s6;
    assert Run(s4, 2, inputs[4..]) == s6;
    assert Run(s3, 2, inputs[3..]) == s6;
    assert Run(s2, 2, inputs[2..]) == s6;
    assert Run(s1, 2, inputs[1..]) == s6;
    assert Run(m, 2, inputs) == s6;
  }
}
