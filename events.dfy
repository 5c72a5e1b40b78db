/**
 * The event surface of the reconnecting socket client: the five event names
 * it emits, the payloads they carry, and the opaque values that come from the
 * JSON library and the browser's transport.
 */
module Events {

  /** A value produced by JSON.parse from an inbound frame (or handed to send);
      its structure is not modelled. */
  type Json

  /** An error value: what the transport reports through onerror, or what the
      WebSocket constructor throws. */
  type TransportError

  const CONNECTED: string := "connected"
  const DISCONNECTED: string := "disconnected"
  const MESSAGE: string := "message"
  const ERROR: string := "error"
  const MAX_RECONNECT_ATTEMPTS_REACHED: string := "maxReconnectAttemptsReached"

  /** The `data` argument of emit: nothing (`undefined` in the source), a parsed
      message, or an error value. */
  datatype Payload = NoPayload | Parsed(value: Json) | Failure(error: TransportError)

  /** One call of emit(name, data). */
  datatype Emission = Emission(name: string, data: Payload)

  const CONNECTED_EMISSION: Emission := Emission(CONNECTED, NoPayload)
  const DISCONNECTED_EMISSION: Emission := Emission(DISCONNECTED, NoPayload)
  const EXHAUSTED_EMISSION: Emission := Emission(MAX_RECONNECT_ATTEMPTS_REACHED, NoPayload)

  /** Number of occurrences of `x` in `s`. */
  ghost function Occurrences(s: seq<Emission>, x: Emission): nat
  {
    if s == [] then 0
    else Occurrences(s[..|s| - 1], x) + (if s[|s| - 1] == x then 1 else 0)
  }

  lemma OccurrencesSnoc(s: seq<Emission>, y: Emission, x: Emission)
    ensures Occurrences(s + [y], x) == Occurrences(s, x) + (if y == x then 1 else 0)
  {
    assert (s + [y])[..|s|] == s;
  }
}
